/** Venue quantity filters: flooring to the step, the per-order cap and the
    bounds a child order must meet. */
module VenueSizing {
  import opened Arithmetic
  import opened Collections

  datatype Filters = Filters(
    minQty: Option<real>, maxQty: Option<real>, maxQtyLimit: Option<real>, maxQtyMarket: Option<real>,
    stepSize: Option<real>, minNotional: Option<real>)

  const EPS := 0.000000000000001       // 1e-15
  const QTY_SLACK := 0.000000000001    // 1e-12
  const NOTIONAL_SLACK := 0.000000001  // 1e-9

  /** int(): truncation towards zero. */
  function Trunc(x: real): int { if x >= 0.0 then x.Floor else -((-x).Floor) }

  function FloorToStep(qty: real, step: real): real {
    if step <= 0.0 then qty else Times(Trunc((qty + EPS) / step) as real, step)
  }

  function CapOf(f: Filters, marketOrder: bool): Option<real> {
    var cap := if marketOrder then f.maxQtyMarket else f.maxQtyLimit;
    if cap.Some? then cap else f.maxQty
  }

  function StepOf(f: Filters): real { match f.stepSize case Some(s) => s case None => 0.0 }

  /** venue_cap_qty */
  function VenueCapQty(qty: real, filters: Option<Filters>, marketOrder: bool): real {
    match filters
    case None => qty
    case Some(f) =>
      match CapOf(f, marketOrder)
      case None => qty
      case Some(cap) => FloorToStep(Min(qty, cap), StepOf(f))
  }

  /** Filters under which the cap can round up: there is a cap, and one step fits
      under it within 1e-15. */
  predicate CanRaise(filters: Option<Filters>, marketOrder: bool) {
    && filters.Some? && CapOf(filters.value, marketOrder).Some? && StepOf(filters.value) > 0.0
    && StepOf(filters.value) <= CapOf(filters.value, marketOrder).value + EPS
  }

  lemma TruncBelow(y: real, step: real)
    requires step > 0.0
    ensures y >= 0.0 ==> 0.0 <= Times(Trunc(y / step) as real, step) <= y
    ensures y < step ==> Times(Trunc(y / step) as real, step) <= 0.0
    ensures y >= step ==> Times(Trunc(y / step) as real, step) >= step
  {
    var n, q := Trunc(y / step) as real, Ratio(y, step);
    assert Times(1.0, step) == step;
    RatioTimes(y, step);
    hide Times;
    TimesSign(q, step);
    TimesSign(n, step);
    TimesOrder(n, q, step);
    TimesOrder(1.0, q, step);
    TimesOrder(1.0, n, step);
  }

  lemma FloorBounds(qty: real, step: real)
    requires step > 0.0
    ensures qty + EPS >= 0.0 ==> 0.0 <= FloorToStep(qty, step) <= qty + EPS
    ensures qty + EPS < step ==> FloorToStep(qty, step) <= 0.0
    ensures qty + EPS >= step ==> FloorToStep(qty, step) >= step
  {
    TruncBelow(qty + EPS, step);
    hide Trunc, Times;
  }

  /** The cap takes at most 1e-15 more than it was given, and nothing more when
      the filters cannot round up. */
  lemma CapAlmostNeverRaises(qty: real, filters: Option<Filters>, marketOrder: bool)
    requires qty >= 0.0
    ensures VenueCapQty(qty, filters, marketOrder) <= qty + EPS
    ensures !CanRaise(filters, marketOrder) ==> VenueCapQty(qty, filters, marketOrder) <= qty
  {
    if filters.Some? && CapOf(filters.value, marketOrder).Some? && StepOf(filters.value) > 0.0 {
      FloorBounds(Min(qty, CapOf(filters.value, marketOrder).value), StepOf(filters.value));
    }
    hide FloorToStep;
  }

  /** The venue's caps are not negative. */
  predicate Sensible(filters: Option<Filters>) {
    filters.Some? ==>
      && (filters.value.maxQty.Some? ==> filters.value.maxQty.value >= 0.0)
      && (CapOf(filters.value, false).Some? ==> CapOf(filters.value, false).value >= 0.0)
      && (CapOf(filters.value, true).Some? ==> CapOf(filters.value, true).value >= 0.0)
  }

  lemma CapNotNegative(qty: real, filters: Option<Filters>, marketOrder: bool)
    requires qty >= 0.0 && Sensible(filters)
    ensures VenueCapQty(qty, filters, marketOrder) >= 0.0
  {
    if filters.Some? && CapOf(filters.value, marketOrder).Some? && StepOf(filters.value) > 0.0 {
      FloorBounds(Min(qty, CapOf(filters.value, marketOrder).value), StepOf(filters.value));
    }
    hide FloorToStep;
  }

  /** The cap raises some quantity exactly under the filters named by CanRaise. */
  lemma CapRaisesIff(filters: Option<Filters>, marketOrder: bool)
    requires Sensible(filters)
    ensures CanRaise(filters, marketOrder) <==> exists qty :: qty >= 0.0 && VenueCapQty(qty, filters, marketOrder) > qty
  {
    if CanRaise(filters, marketOrder) {
      var qty := JustBelowStep(filters, marketOrder);
      assert qty >= 0.0 && VenueCapQty(qty, filters, marketOrder) > qty;
    } else {
      forall qty | qty >= 0.0 ensures VenueCapQty(qty, filters, marketOrder) <= qty {
        CapAlmostNeverRaises(qty, filters, marketOrder);
      }
    }
  }

  lemma JustBelowStep(filters: Option<Filters>, marketOrder: bool) returns (qty: real)
    requires Sensible(filters) && CanRaise(filters, marketOrder)
    ensures qty >= 0.0 && VenueCapQty(qty, filters, marketOrder) > qty
  {
    var step, cap := StepOf(filters.value), CapOf(filters.value, marketOrder).value;
    qty := if step <= EPS then 0.0 else Min(step - EPS / 2.0, cap);
    FloorBounds(Min(qty, cap), step);
    hide FloorToStep;
  }

  /** Whole multiples of the step within the cap pass through unchanged. */
  lemma CapKeepsWholeSteps(n: nat, f: Filters, marketOrder: bool)
    requires StepOf(f) > EPS
    requires CapOf(f, marketOrder).Some? ==> n as real * StepOf(f) <= CapOf(f, marketOrder).value
    ensures VenueCapQty(n as real * StepOf(f), Some(f), marketOrder) == n as real * StepOf(f)
  {
    var step := StepOf(f);
    var qty := n as real * step;
    assert (qty + EPS) / step == n as real + EPS / step;
    assert 0.0 < EPS / step < 1.0;
    assert Trunc((qty + EPS) / step) == n;
    assert FloorToStep(qty, step) == qty;
    if CapOf(f, marketOrder).Some? {
      hide FloorToStep;
      assert Min(qty, CapOf(f, marketOrder).value) == qty;
    }
  }

  /** Below a step by less than 1e-15, the cap rounds up. */
  lemma CapCanRaise()
    ensures var f := Filters(None, Some(100.0), None, None, Some(1.0), None);
      var qty := 1.0 - EPS / 2.0;
      VenueCapQty(qty, Some(f), false) == 1.0 > qty && VenueQtyInBounds(qty, Some(f), None)
  {
    assert ((1.0 - EPS / 2.0) + EPS) / 1.0 == 1.0 + EPS / 2.0;
    assert (1.0 + EPS / 2.0).Floor == 1;
  }

  predicate AtLeast(qty: real, bound: Option<real>) { bound.Some? ==> qty + QTY_SLACK >= bound.value }

  /** venue_qty_in_bounds for orders that are not reduce-only. */
  predicate VenueQtyInBounds(qty: real, filters: Option<Filters>, refPrice: Option<real>) {
    filters.None? ||
    (var f := filters.value;
     && (f.maxQty.Some? ==> qty <= f.maxQty.value + QTY_SLACK)
     && (StepOf(f) > 0.0 ==> AtLeast(qty, f.stepSize))
     && AtLeast(qty, f.minQty)
     && (f.minNotional.Some? && refPrice.Some? ==> qty * refPrice.value + NOTIONAL_SLACK >= f.minNotional.value))
  }

  /** What may be sent is at least a step, a minimum and a minimal notional, and at most a
      maximum, as far as the venue has them and up to the slack. */
  lemma BoundsIff(qty: real, f: Filters, refPrice: Option<real>)
    ensures VenueQtyInBounds(qty, Some(f), refPrice) <==>
      && !(f.maxQty.Some? && qty > f.maxQty.value + QTY_SLACK)
      && !(f.stepSize.Some? && f.stepSize.value > 0.0 && qty < f.stepSize.value - QTY_SLACK)
      && !(f.minQty.Some? && qty < f.minQty.value - QTY_SLACK)
      && !(f.minNotional.Some? && refPrice.Some? && Times(qty, refPrice.value) < f.minNotional.value - NOTIONAL_SLACK)
  {
  }

  // --- Quantities that are raised and still sendable ------------------------------------

  /** The most a capped quantity within the venue's maximum can be. */
  function Room(f: Filters, marketOrder: bool): real
    requires CapOf(f, marketOrder).Some?
  {
    var top := CapOf(f, marketOrder).value + EPS;
    if f.maxQty.Some? then Min(top, f.maxQty.value + QTY_SLACK) else top
  }

  function Lots(room: real, step: real): (n: int)
    requires step > 0.0
  {
    Trunc(room / step)
  }

  /** The largest whole number of steps in that room. */
  function LargestLot(f: Filters, marketOrder: bool): real
    requires CapOf(f, marketOrder).Some? && StepOf(f) > 0.0
  {
    Times(Lots(Room(f, marketOrder), StepOf(f)) as real, StepOf(f))
  }

  /** Filters under which a raised quantity can be sent: the cap can round up, and the
      largest lot is a step or more and not below the minimum. */
  predicate CanOverfill(filters: Option<Filters>, marketOrder: bool) {
    && CanRaise(filters, marketOrder)
    && LargestLot(filters.value, marketOrder) >= StepOf(filters.value)
    && AtLeast(LargestLot(filters.value, marketOrder), filters.value.minQty)
  }

  predicate NeverOverfills(filters: Option<Filters>) { !CanOverfill(filters, false) && !CanOverfill(filters, true) }

  lemma LotsBound(n: int, room: real, step: real)
    requires step > 0.0 && Times(n as real, step) <= room && n >= 0
    ensures n <= Lots(room, step)
  {
    RatioTimes(room, step);
    TimesOrder(n as real, Ratio(room, step), step);
    hide Times;
  }

  lemma TimesGrows(m: int, n: int, step: real)
    requires m <= n && step > 0.0
    ensures Times(m as real, step) <= Times(n as real, step)
    ensures m >= 1 ==> Times(m as real, step) >= step
    ensures m <= 0 ==> Times(m as real, step) <= 0.0
  {
    assert Times(1.0, step) == step;
    hide Times;
    TimesOrder(m as real, n as real, step);
    TimesOrder(1.0, m as real, step);
    TimesSign(m as real, step);
  }

  /** Every positive capped quantity within bounds is a whole number of steps that the
      largest lot is not below; so under its filters some quantity is raised and sent. */
  lemma SentLotFits(qty: real, filters: Option<Filters>, marketOrder: bool, refPrice: Option<real>)
    requires qty >= 0.0 && filters.Some? && CapOf(filters.value, marketOrder).Some? && StepOf(filters.value) > 0.0
    requires Sensible(filters) && VenueCapQty(qty, filters, marketOrder) > 0.0
    requires VenueQtyInBounds(VenueCapQty(qty, filters, marketOrder), filters, refPrice)
    ensures CanOverfill(filters, marketOrder)
  {
    var f, step := filters.value, StepOf(filters.value);
    var x := Min(qty, CapOf(f, marketOrder).value);
    var n := Trunc((x + EPS) / step);
    FloorBounds(x, step);
    assert VenueCapQty(qty, filters, marketOrder) == Times(n as real, step);
    hide FloorToStep, Trunc, Times;
    TimesGrows(n, n, step);
    LotsBound(n, Room(f, marketOrder), step);
    TimesGrows(n, Lots(Room(f, marketOrder), step), step);
  }

  /** A quantity just below the largest lot. */
  function BelowLargestLot(filters: Option<Filters>, marketOrder: bool): real
    requires CanOverfill(filters, marketOrder)
  {
    var f, step := filters.value, StepOf(filters.value);
    var lot := LargestLot(f, marketOrder);
    if lot > EPS then lot - EPS
    else Min(lot, Times((Lots(Room(f, marketOrder), step) + 1) as real, step) - EPS) / 2.0
  }

  /** It is raised to the largest lot. */
  lemma BelowLargestIsRaised(filters: Option<Filters>, marketOrder: bool)
    requires Sensible(filters) && CanOverfill(filters, marketOrder)
    ensures var qty := BelowLargestLot(filters, marketOrder);
      0.0 < qty < VenueCapQty(qty, filters, marketOrder) == LargestLot(filters.value, marketOrder)
  {
    var f, step := filters.value, StepOf(filters.value);
    var room, cap := Room(f, marketOrder), CapOf(f, marketOrder).value;
    LotsWithin(room, step);
    LotsAt(Lots(room, step), Min(BelowLargestLot(filters, marketOrder), cap) + EPS, step);
  }

  lemma LotsWithin(room: real, step: real)
    requires step > 0.0 && room >= 0.0
    ensures Times(Lots(room, step) as real, step) <= room < Times((Lots(room, step) + 1) as real, step)
  {
    RatioTimes(room, step);
    TimesSign(Ratio(room, step), step);
    TimesOrder(Lots(room, step) as real, Ratio(room, step), step);
    TimesOrder(Ratio(room, step), (Lots(room, step) + 1) as real, step);
    hide Times;
  }

  lemma LotsAt(n: int, x: real, step: real)
    requires step > 0.0 && n >= 0 && Times(n as real, step) <= x < Times((n + 1) as real, step)
    ensures Trunc(x / step) == n
  {
    RatioTimes(x, step);
    TimesOrder(n as real, Ratio(x, step), step);
    TimesOrder(Ratio(x, step), (n + 1) as real, step);
    hide Times;
  }

  /** Some positive quantity is raised by the cap and lies in bounds, exactly under the
      filters named by CanOverfill. */
  lemma RaisedIsSentIff(filters: Option<Filters>, marketOrder: bool)
    requires Sensible(filters)
    ensures CanOverfill(filters, marketOrder) <==>
      exists qty, refPrice ::
        && qty > 0.0 && VenueCapQty(qty, filters, marketOrder) > qty
        && VenueQtyInBounds(VenueCapQty(qty, filters, marketOrder), filters, refPrice)
  {
    if CanOverfill(filters, marketOrder) {
      var qty := BelowLargestLot(filters, marketOrder);
      BelowLargestIsRaised(filters, marketOrder);
      LargestLotInBounds(filters, marketOrder, None);
      assert VenueQtyInBounds(VenueCapQty(qty, filters, marketOrder), filters, None);
    }
    forall qty, refPrice | qty > 0.0 && VenueCapQty(qty, filters, marketOrder) > qty
      ensures VenueQtyInBounds(VenueCapQty(qty, filters, marketOrder), filters, refPrice) ==>
                CanOverfill(filters, marketOrder)
    {
      CapAlmostNeverRaises(qty, filters, marketOrder);
      if VenueQtyInBounds(VenueCapQty(qty, filters, marketOrder), filters, refPrice) {
        SentLotFits(qty, filters, marketOrder, refPrice);
      }
    }
  }

  lemma LargestLotInBounds(filters: Option<Filters>, marketOrder: bool, refPrice: Option<real>)
    requires Sensible(filters) && CanOverfill(filters, marketOrder)
    requires filters.value.minNotional.Some? && refPrice.Some? ==>
      LargestLot(filters.value, marketOrder) * refPrice.value >= filters.value.minNotional.value
    ensures VenueQtyInBounds(LargestLot(filters.value, marketOrder), filters, refPrice)
  {
    LotsWithin(Room(filters.value, marketOrder), StepOf(filters.value));
    hide Lots, Times;
  }
}
