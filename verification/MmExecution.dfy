/** Pricing helpers of the market-making quote executor: no-cross clamp, place and
    keep zones, climbing, ladders. */
module MmExecution {
  import opened Arithmetic
  import opened Collections
  import opened Enums

  datatype Mode = Make | Chase | Climb | Ladder | ClimbMulti | Take
  datatype Reason = TooAggressive | TooDeep | Stale

  /** Best bid and ask, each absent when unknown. */
  datatype Touch = Touch(bid: Option<real>, ask: Option<real>)

  const SLACK := 0.000000000001 // 1e-12

  predicate Positive(x: Option<real>) { x.Some? && x.value > 0.0 }

  // --- Tick ---------------------------------------------------------------------

  function DefaultTick(price: real): real {
    if price >= 50000.0 then 0.1 else if price >= 50.0 then 0.01 else if price >= 1.0 then 0.001 else 0.0001
  }

  /** infer_price_tick_from_touch: never zero or negative. */
  function InferTick(touch: Touch, mid: real, spreadBps: Option<real>): (tick: real)
    ensures tick > 0.0
  {
    var tick := DefaultTick(if Positive(touch.bid) then touch.bid.value else mid);
    var implied := if mid > 0.0 && Positive(spreadBps) then Times(mid, spreadBps.value) / 10000.0 else 0.0;
    ImpliedSpreadPositive(mid, spreadBps);
    if touch.bid.Some? && touch.ask.Some? && touch.ask.value > touch.bid.value > 0.0 then
      var spread := touch.ask.value - touch.bid.value;
      if spread <= tick * 1.05 then tick
      else if implied > 0.0 && spread <= implied * 1.05 then spread
      else tick
    else if mid > 0.0 && Positive(spreadBps) then implied
    else tick
  }

  lemma ImpliedSpreadPositive(mid: real, spreadBps: Option<real>)
    ensures mid > 0.0 && Positive(spreadBps) ==> Times(mid, spreadBps.value) / 10000.0 > 0.0
  {
    if mid > 0.0 && Positive(spreadBps) {
      assert Times(mid, spreadBps.value) > 0.0;
    }
  }

  /** Default ticks grow with the price, tenfold at 1, 50 and 50000. */
  lemma TickBands(x: real, y: real)
    ensures x <= y ==> DefaultTick(x) <= DefaultTick(y)
    ensures x < 1.0 <= y ==> 10.0 * DefaultTick(x) <= DefaultTick(y)
    ensures x < 50.0 <= y ==> 10.0 * DefaultTick(x) <= DefaultTick(y)
    ensures x < 50000.0 <= y ==> 10.0 * DefaultTick(x) <= DefaultTick(y)
    ensures DefaultTick(x) < DefaultTick(y) ==> x < 1.0 <= y || x < 50.0 <= y || x < 50000.0 <= y
    ensures DefaultTick(0.0) == 0.0001
  {
  }

  /** Between two prices the tick is the default one of the bid, or the spread where that
      is more than a twentieth above it and the spread known in basis points of the mid
      explains it; without both prices it is that known spread, or the default one. */
  lemma InferTickMeaning(touch: Touch, mid: real, spreadBps: Option<real>)
    ensures var tick, known := InferTick(touch, mid, spreadBps), mid > 0.0 && Positive(spreadBps);
      if Positive(touch.bid) && touch.ask.Some? && touch.ask.value > touch.bid.value then
        var spread, default := touch.ask.value - touch.bid.value, DefaultTick(touch.bid.value);
        if 20.0 * spread > 21.0 * default && known && 200000.0 * spread <= 21.0 * Times(mid, spreadBps.value)
        then tick == spread else tick == default
      else if known then 10000.0 * tick == Times(mid, spreadBps.value)
      else tick == DefaultTick(if Positive(touch.bid) then touch.bid.value else mid)
  {
    ImpliedSpreadPositive(mid, spreadBps);
    hide Times, DefaultTick;
  }

  // --- No-cross clamp -------------------------------------------------------------

  predicate CrossesAsk(bid: real, touch: Touch) { Positive(touch.ask) && bid >= touch.ask.value }
  predicate CrossesBid(ask: real, touch: Touch) { Positive(touch.bid) && ask <= touch.bid.value }

  /** clamp_targets_no_cross */
  function Clamp(bid: Option<real>, ask: Option<real>, touch: Touch, tick: real): (Option<real>, Option<real>) {
    if tick <= 0.0 then (bid, ask)
    else
      (if bid.Some? && CrossesAsk(bid.value, touch) then Some(touch.ask.value - tick) else bid,
       if ask.Some? && CrossesBid(ask.value, touch) then Some(touch.bid.value + tick) else ask)
  }

  predicate Crosses(side: Side, price: real, touch: Touch) {
    if side.Buy? then CrossesAsk(price, touch) else CrossesBid(price, touch)
  }

  /** With a positive tick neither clamped price crosses, a price that did not cross
      is left alone, and clamping again changes nothing. */
  lemma ClampNeverCrosses(bid: Option<real>, ask: Option<real>, touch: Touch, tick: real)
    requires tick > 0.0
    ensures var (b, a) := Clamp(bid, ask, touch, tick);
      && (b.Some? <==> bid.Some?) && (a.Some? <==> ask.Some?)
      && (b.Some? ==> !CrossesAsk(b.value, touch) && b.value <= bid.value)
      && (a.Some? ==> !CrossesBid(a.value, touch) && a.value >= ask.value)
      && (bid.Some? && !CrossesAsk(bid.value, touch) ==> b == bid)
      && (ask.Some? && !CrossesBid(ask.value, touch) ==> a == ask)
      && Clamp(b, a, touch, tick) == (b, a)
  {
  }

  /** Whether a price is at least as far from the other side as the target. */
  predicate NoBetter(side: Side, price: real, target: real) {
    if side.Buy? then price <= target else price >= target
  }

  /** Moving away from the touch keeps a price from crossing. */
  lemma AwayNeverCrosses(side: Side, price: real, target: real, touch: Touch)
    requires NoBetter(side, price, target) && !Crosses(side, target, touch)
    ensures !Crosses(side, price, touch)
  {
  }

  // --- Zones and replacement --------------------------------------------------------

  function Factor(bps: real): real { bps / 10000.0 }

  /** within_place_zone */
  predicate WithinPlaceZone(side: Side, price: real, touch: Touch, placeBps: real) {
    placeBps <= 0.0
    || (if side.Buy? then Positive(touch.bid) && price >= Times(touch.bid.value, 1.0 - Factor(placeBps))
        else Positive(touch.ask) && price <= Times(touch.ask.value, 1.0 + Factor(placeBps)))
  }

  predicate Aggressive(side: Side, price: real, target: real) {
    if side.Buy? then price > target + SLACK else price < target - SLACK
  }

  predicate Deep(side: Side, price: real, touch: Touch, cancelBps: real) {
    cancelBps > 0.0 &&
    (if side.Buy? then Positive(touch.bid) && price < Times(touch.bid.value, 1.0 - Factor(cancelBps)) - SLACK
     else Positive(touch.ask) && price > Times(touch.ask.value, 1.0 + Factor(cancelBps)) + SLACK)
  }

  /** How far a price lies behind the touch of its own side. */
  function Behind(side: Side, price: real, touch: Touch): Option<real> {
    if side.Buy? then (if Positive(touch.bid) then Some(touch.bid.value - price) else None)
    else if Positive(touch.ask) then Some(price - touch.ask.value) else None
  }

  function OwnTouch(side: Side, touch: Touch): real
    requires Behind(side, 0.0, touch).Some?
  {
    if side.Buy? then touch.bid.value else touch.ask.value
  }

  /** The place zone ends `placeBps` basis points of the touch behind it, the keep zone
      `cancelBps` and the slack. */
  lemma ZonesIff(side: Side, price: real, touch: Touch, bps: real)
    requires bps > 0.0
    ensures Behind(side, price, touch).None? ==>
      !WithinPlaceZone(side, price, touch, bps) && !Deep(side, price, touch, bps)
    ensures Behind(side, price, touch).Some? ==>
      var behind, width := Behind(side, price, touch).value, Times(OwnTouch(side, touch), bps);
      && (WithinPlaceZone(side, price, touch, bps) <==> 10000.0 * behind <= width)
      && (Deep(side, price, touch, bps) <==> 10000.0 * (behind - SLACK) > width)
  {
    if Behind(side, price, touch).Some? {
      var t := OwnTouch(side, touch);
      assert Times(t, 1.0 - Factor(bps)) == t - Times(t, bps) / 10000.0;
      assert Times(t, 1.0 + Factor(bps)) == t + Times(t, bps) / 10000.0;
      hide Times, Factor;
    }
  }

  /** What may be placed is not too deep to be kept, if the keep zone is the wider one. */
  lemma PlaceableIsKept(side: Side, price: real, touch: Touch, placeBps: real, cancelBps: real)
    requires 0.0 < placeBps <= cancelBps && WithinPlaceZone(side, price, touch, placeBps)
    ensures !Deep(side, price, touch, cancelBps)
  {
    ZonesIff(side, price, touch, placeBps);
    ZonesIff(side, price, touch, cancelBps);
    hide Deep, WithinPlaceZone;
    var t := OwnTouch(side, touch);
    TimesOrder(placeBps, cancelBps, t);
    TimesNegates(t, placeBps);
    TimesNegates(t, cancelBps);
  }

  /** Behind a price that is too deep everything is, and there are such prices. */
  lemma DeepFurtherDown(side: Side, touch: Touch, cancelBps: real) returns (edge: real)
    requires cancelBps > 0.0 && Behind(side, 0.0, touch).Some?
    ensures forall price :: NoBetter(side, price, edge) ==> Deep(side, price, touch, cancelBps)
    ensures forall x, y :: Deep(side, x, touch, cancelBps) && NoBetter(side, y, x) ==>
              Deep(side, y, touch, cancelBps)
  {
    var t := OwnTouch(side, touch);
    edge := if side.Buy? then Times(t, 1.0 - Factor(cancelBps)) - 1.0 else Times(t, 1.0 + Factor(cancelBps)) + 1.0;
    hide Times, Factor;
  }

  function MoveBps(price: real, target: real): real {
    if price > 0.0 then Ratio(Abs(target - price), price) * 10000.0 else 0.0
  }

  /** cancel_reason */
  function CancelReason(side: Side, price: real, target: real, touch: Touch, cancelBps: real,
                        posted: real, minRest: real, now: real): Option<Reason> {
    if Aggressive(side, price, target) then Some(TooAggressive)
    else if Deep(side, price, touch, cancelBps) then Some(TooDeep)
    else if minRest > 0.0 && posted > 0.0 && now - posted < minRest then None
    else if minRest > 0.0 && posted > 0.0 && now - posted >= minRest * 3.0 && MoveBps(price, target) > 0.5
    then Some(Stale)
    else None
  }

  /** A working quote is kept exactly when it is no better than its target, not too deep,
      and either not yet three rest times old or no more than half a basis point off. */
  lemma KeptIff(side: Side, price: real, target: real, touch: Touch, cancelBps: real, posted: real, minRest: real,
                now: real)
    ensures var age := now - posted;
      CancelReason(side, price, target, touch, cancelBps, posted, minRest, now).None? <==>
      && (if side.Buy? then price <= target + SLACK else price >= target - SLACK)
      && !Deep(side, price, touch, cancelBps)
      && (minRest > 0.0 && posted > 0.0 && price > 0.0 && age >= 3.0 * minRest ==>
            20000.0 * Abs(target - price) <= price)
  {
    hide Deep;
    if price > 0.0 {
      RatioTimes(Abs(target - price), price);
      var x := Ratio(Abs(target - price), price);
      TimesOrder(x, 0.00005, price);
      TimesOrder(0.00005, x, price);
      assert Times(0.00005, price) == 0.00005 * price;
      hide Ratio, Times;
    }
  }

  /** chase_should_replace */
  predicate ChaseShouldReplace(price: real, qty: real, target: real, targetQty: real, refreshBps: real) {
    || price <= 0.0 || qty <= 0.0
    || MoveBps(price, target) >= refreshBps
    || Ratio(Abs(targetQty - qty), qty) >= 0.05
  }

  /** CHASE keeps its quote exactly while the price is less than `refreshBps` basis points
      of it off and the size less than a twentieth. */
  lemma ChaseKeepsIff(price: real, qty: real, target: real, targetQty: real, refreshBps: real)
    ensures !ChaseShouldReplace(price, qty, target, targetQty, refreshBps) <==>
      && price > 0.0 && qty > 0.0
      && 10000.0 * Abs(target - price) < Times(refreshBps, price) && 20.0 * Abs(targetQty - qty) < qty
  {
    if price > 0.0 && qty > 0.0 {
      RatioTimes(Abs(target - price), price);
      RatioTimes(Abs(targetQty - qty), qty);
      var x, y := Ratio(Abs(target - price), price), Ratio(Abs(targetQty - qty), qty);
      TimesOrder(refreshBps, 10000.0 * x, price);
      assert Times(10000.0 * x, price) == 10000.0 * Times(x, price);
      TimesOrder(0.05, y, qty);
      assert Times(0.05, qty) == 0.05 * qty;
      hide Ratio, Times;
    }
  }

  /** climb_next_price */
  function ClimbNextPrice(side: Side, working: real, target: real, tick: real, climbTicks: int): real {
    if tick <= 0.0 || climbTicks <= 0 then target
    else
      var step := Times(tick, climbTicks as real);
      if side.Buy? then
        if working > target + SLACK then Max(target, working - step)
        else if working < target - SLACK then Min(target, working + step)
        else working
      else
        if working < target - SLACK then Min(target, working + step)
        else if working > target + SLACK then Max(target, working - step)
        else working
  }

  /** A climb never overshoots the target, and ends strictly closer unless it is
      within the slack already. */
  lemma ClimbApproaches(side: Side, working: real, target: real, tick: real, climbTicks: int)
    requires tick > 0.0 && climbTicks > 0
    ensures var next := ClimbNextPrice(side, working, target, tick, climbTicks);
      && (working <= target ==> working <= next <= target)
      && (working >= target ==> target <= next <= working)
      && (Abs(working - target) > SLACK ==> Abs(next - target) < Abs(working - target))
  {
    assert Times(tick, climbTicks as real) > 0.0;
  }

  /** Without a step the climb goes to the target at once; otherwise it stays within the
      slack, reaches a target within one step, and else moves one step towards it. */
  lemma ClimbSteps(side: Side, working: real, target: real, tick: real, climbTicks: int)
    ensures var next, off := ClimbNextPrice(side, working, target, tick, climbTicks), Abs(target - working);
      var step := Times(tick, climbTicks as real);
      if tick <= 0.0 || climbTicks <= 0 then next == target
      else if off <= SLACK then next == working
      else if off <= step then next == target
      else Abs(next - working) == step && Abs(target - next) == off - step
  {
    if tick > 0.0 && climbTicks > 0 {
      TimesSign(climbTicks as real, tick);
    }
    hide Times;
  }

  /** A quote that is not too aggressive climbs to a price no better than the target,
      unless it stays where it is. */
  lemma ClimbIsNoBetter(side: Side, working: real, target: real, tick: real, climbTicks: int)
    requires !Aggressive(side, working, target)
    ensures var next := ClimbNextPrice(side, working, target, tick, climbTicks);
      next == working || NoBetter(side, next, target)
  {
  }

  /** A climb that is no better than the target at most, or else one step back from
      the working price. */
  lemma ClimbIsTargetOrStep(side: Side, working: real, target: real, tick: real, climbTicks: int)
    ensures var next := ClimbNextPrice(side, working, target, tick, climbTicks);
      || NoBetter(side, next, target)
      || next == SteppedBack(side, working, Times(tick, climbTicks as real))
      || (next == working && !Aggressive(side, working, target))
  {
  }

  function SteppedBack(side: Side, price: real, step: real): real {
    if side.Buy? then price - step else price + step
  }

  /** In CLIMB_MULTI an over-aggressive quote is re-placed at its climb price, not at
      its target.  That price crosses exactly when one step back from the old price
      still does. */
  lemma StaleClimbCrossesIff(side: Side, working: real, target: real, touch: Touch, tick: real, climbTicks: int)
    requires tick > 0.0 && climbTicks > 0
    requires Aggressive(side, working, target) && !Crosses(side, target, touch)
    ensures Crosses(side, ClimbNextPrice(side, working, target, tick, climbTicks), touch)
       <==> Crosses(side, SteppedBack(side, working, Times(tick, climbTicks as real)), touch)
  {
  }

  lemma StaleClimbCanCross()
    ensures var touch := Touch(Some(99.0), Some(100.0));
      && Aggressive(Buy, 102.0, 99.0) && !Crosses(Buy, 99.0, touch)
      && ClimbNextPrice(Buy, 102.0, 99.0, 1.0, 1) == 101.0
      && Crosses(Buy, 101.0, touch) && WithinPlaceZone(Buy, 101.0, touch, 50.0)
  {
    assert Times(1.0, 1.0) == 1.0;
    assert Times(99.0, 1.0 - Factor(50.0)) <= 99.0;
  }

  /** _quote_unchanged */
  predicate QuoteUnchanged(price: real, qty: real, target: real, targetQty: real, tick: real) {
    Abs(price - target) < Max(tick * 0.5, SLACK) && (qty > 0.0 ==> Ratio(Abs(targetQty - qty), qty) < 0.05)
  }

  /** A quote is unchanged while it is less than half a tick off, or within the slack, and
      its size less than a twentieth. */
  lemma QuoteUnchangedIff(price: real, qty: real, target: real, targetQty: real, tick: real)
    ensures QuoteUnchanged(price, qty, target, targetQty, tick) <==>
      && (2.0 * Abs(price - target) < tick || Abs(price - target) < SLACK)
      && (qty > 0.0 ==> 20.0 * Abs(targetQty - qty) < qty)
  {
    if qty > 0.0 {
      var y := Ratio(Abs(targetQty - qty), qty);
      RatioTimes(Abs(targetQty - qty), qty);
      TimesOrder(y, 0.05, qty);
      assert Times(0.05, qty) == 0.05 * qty;
      hide Ratio, Times;
    }
  }

  // --- Ladders ------------------------------------------------------------------------

  datatype LevelTarget = LevelTarget(level: nat, price: real, qty: real)

  function LevelWeights(weights: seq<real>, n: nat): seq<real>
    requires n > 0
  {
    if |weights| == n then weights else seq(n, _ => 1.0 / n as real)
  }

  function TotalWeight(w: seq<real>): real {
    var s := Total(w);
    if s == 0.0 then 1.0 else s
  }

  function LevelPrice(side: Side, target: real, i: nat, spacing: real): real {
    if side.Buy? then target - Times(i as real, spacing) else target + Times(i as real, spacing)
  }

  /** The levels made from the first `n` weights, dropping prices and sizes that are
      not positive. */
  function LevelsUpTo(side: Side, target: real, qty: real, spacing: real, w: seq<real>, n: nat): seq<LevelTarget>
    requires n <= |w|
  {
    if n == 0 then []
    else
      var price := LevelPrice(side, target, n - 1, spacing);
      var size := Times(qty, Ratio(w[n - 1], TotalWeight(w)));
      LevelsUpTo(side, target, qty, spacing, w, n - 1)
      + if price > 0.0 && size > 0.0 then [LevelTarget(n - 1, price, size)] else []
  }

  function LadderLevels(side: Side, target: real, qty: real, tick: real, levels: int, spacingTicks: int,
                        weights: seq<real>): seq<LevelTarget> {
    var n := MaxInt(1, levels);
    LevelsUpTo(side, target, qty, Times(MaxInt(1, spacingTicks) as real, tick), LevelWeights(weights, n), n)
  }

  /** ladder_level_targets */
  method LadderLevelTargets(side: Side, target: real, qty: real, tick: real, levels: int, spacingTicks: int,
                            weights: seq<real>) returns (out: seq<LevelTarget>)
    ensures out == LadderLevels(side, target, qty, tick, levels, spacingTicks, weights)
  {
    var n := MaxInt(1, levels);
    var spacing := Times(MaxInt(1, spacingTicks) as real, tick);
    var w := LevelWeights(weights, n);
    var totalW := TotalWeight(w);
    out := [];
    for i := 0 to n
      invariant out == LevelsUpTo(side, target, qty, spacing, w, i)
    {
      var price := LevelPrice(side, target, i, spacing);
      var size := Times(qty, Ratio(w[i], totalW));
      if price > 0.0 && size > 0.0 {
        out := out + [LevelTarget(i, price, size)];
      }
    }
  }

  /** Rungs: increasing level numbers, prices no better than the target and stepping
      strictly away from it, positive sizes. */
  ghost predicate Rungs(side: Side, target: real, t: seq<LevelTarget>, n: nat) {
    && (forall i :: 0 <= i < |t| ==>
          t[i].level < n && NoBetter(side, t[i].price, target) && t[i].price > 0.0 && t[i].qty > 0.0)
    && (forall i, j :: 0 <= i < j < |t| ==>
          t[i].level < t[j].level && (if side.Buy? then t[j].price < t[i].price else t[j].price > t[i].price))
  }

  lemma StepsAway(side: Side, target: real, i: nat, j: nat, spacing: real)
    requires spacing > 0.0 && i < j
    ensures if side.Buy? then LevelPrice(side, target, j, spacing) < LevelPrice(side, target, i, spacing)
            else LevelPrice(side, target, j, spacing) > LevelPrice(side, target, i, spacing)
    ensures NoBetter(side, LevelPrice(side, target, i, spacing), target)
  {
    assert Times(j as real, spacing) - Times(i as real, spacing) == Times((j - i) as real, spacing);
    assert Times((j - i) as real, spacing) > 0.0;
    assert Times(i as real, spacing) >= 0.0;
  }

  lemma {:induction false} LevelsAreRungs(side: Side, target: real, qty: real, spacing: real, w: seq<real>, n: nat)
    requires n <= |w| && spacing > 0.0
    ensures var t := LevelsUpTo(side, target, qty, spacing, w, n);
      && Rungs(side, target, t, n) && |t| <= n
      && (forall i :: 0 <= i < |t| ==> t[i].price == LevelPrice(side, target, t[i].level, spacing))
  {
    if n > 0 {
      LevelsAreRungs(side, target, qty, spacing, w, n - 1);
      var t := LevelsUpTo(side, target, qty, spacing, w, n - 1);
      forall i | 0 <= i < |t| ensures (if side.Buy? then LevelPrice(side, target, n - 1, spacing) < t[i].price
                                       else LevelPrice(side, target, n - 1, spacing) > t[i].price) {
        StepsAway(side, target, t[i].level, n - 1, spacing);
      }
      StepsAway(side, target, n - 1, n, spacing);
      hide LevelPrice, Times, Ratio, TotalWeight;
    }
  }

  /** A rung's size is its weight's share of the target size; an equal share unless there is
      one weight a level, and the weight times the target size if the weights cancel out. */
  ghost predicate HasShare(size: real, qty: real, weights: seq<real>, n: nat, level: nat) {
    if |weights| != n then Times(n as real, size) == qty
    else
      && level < n
      && if Sum(weights) == 0.0 then size == Times(qty, weights[level])
         else Times(size, Sum(weights)) == Times(qty, weights[level])
  }

  lemma ShareOfLevel(qty: real, weights: seq<real>, n: nat, level: nat)
    requires level < n
    ensures var w := LevelWeights(weights, n);
      HasShare(Times(qty, Ratio(w[level], TotalWeight(w))), qty, weights, n, level)
  {
    var w := LevelWeights(weights, n);
    var share := Ratio(w[level], TotalWeight(w));
    RatioTimes(w[level], TotalWeight(w));
    if |weights| != n {
      SumConstant(n, 1.0 / n as real);
      assert share == 1.0 / n as real;
      assert Times(n as real, Times(qty, share)) == qty;
    } else if Sum(weights) != 0.0 {
      assert Times(Times(qty, share), Sum(weights)) == Times(qty, Times(share, Sum(weights)));
    }
  }

  ghost predicate HaveShares(t: seq<LevelTarget>, qty: real, weights: seq<real>, n: nat) {
    forall i :: 0 <= i < |t| ==> HasShare(t[i].qty, qty, weights, n, t[i].level)
  }

  lemma HaveSharesSnoc(t: seq<LevelTarget>, x: LevelTarget, qty: real, weights: seq<real>, n: nat)
    requires HaveShares(t, qty, weights, n) && HasShare(x.qty, qty, weights, n, x.level)
    ensures HaveShares(t + [x], qty, weights, n)
  {
    hide HasShare;
  }

  lemma {:induction false} LevelsHaveShares(side: Side, target: real, qty: real, spacing: real, weights: seq<real>,
                                            w: seq<real>, n: nat)
    requires n <= |w| && 0 < |w| && w == LevelWeights(weights, |w|)
    ensures HaveShares(LevelsUpTo(side, target, qty, spacing, w, n), qty, weights, |w|)
  {
    if n > 0 {
      LevelsHaveShares(side, target, qty, spacing, weights, w, n - 1);
      ShareOfLevel(qty, weights, |w|, n - 1);
      var size := Times(qty, Ratio(w[n - 1], TotalWeight(w)));
      var x := LevelTarget(n - 1, LevelPrice(side, target, n - 1, spacing), size);
      HaveSharesSnoc(LevelsUpTo(side, target, qty, spacing, w, n - 1), x, qty, weights, |w|);
      hide HasShare, HaveShares, LevelPrice, LevelWeights, Times, Ratio, TotalWeight;
    }
  }

  /** Every rung has its weight's share of the target size. */
  lemma LadderSizes(side: Side, target: real, qty: real, tick: real, levels: int, spacingTicks: int,
                    weights: seq<real>)
    ensures HaveShares(LadderLevels(side, target, qty, tick, levels, spacingTicks, weights), qty, weights,
                       MaxInt(1, levels))
  {
    var n, spacing := MaxInt(1, levels), Times(MaxInt(1, spacingTicks) as real, tick);
    LevelsHaveShares(side, target, qty, spacing, weights, LevelWeights(weights, n), n);
    hide HaveShares, LevelsUpTo, Times;
  }

  /** Ladder prices step strictly away from the target and never better it. */
  lemma LadderStepsAway(side: Side, target: real, qty: real, tick: real, levels: int, spacingTicks: int,
                        weights: seq<real>)
    requires tick > 0.0
    ensures var t := LadderLevels(side, target, qty, tick, levels, spacingTicks, weights);
      Rungs(side, target, t, MaxInt(1, levels)) && |t| <= MaxInt(1, levels)
  {
    var n := MaxInt(1, levels);
    assert Times(MaxInt(1, spacingTicks) as real, tick) > 0.0;
    LevelsAreRungs(side, target, qty, Times(MaxInt(1, spacingTicks) as real, tick), LevelWeights(weights, n), n);
  }

  ghost function QtySum(t: seq<LevelTarget>): real {
    if t == [] then 0.0 else QtySum(t[..|t| - 1]) + t[|t| - 1].qty
  }

  lemma QtySumSnoc(t: seq<LevelTarget>, x: LevelTarget)
    ensures QtySum(t + [x]) == QtySum(t) + x.qty && QtySum(t + []) == QtySum(t)
  {
    assert (t + [x])[..|t|] == t && t + [] == t;
  }

  predicate NotNegative(w: seq<real>) { forall i :: 0 <= i < |w| ==> w[i] >= 0.0 }

  lemma {:induction false} QtysWithinShare(side: Side, target: real, qty: real, spacing: real, w: seq<real>, n: nat)
    requires n <= |w| && qty >= 0.0 && NotNegative(w) && TotalWeight(w) > 0.0
    ensures QtySum(LevelsUpTo(side, target, qty, spacing, w, n)) <= Times(qty, Ratio(Sum(w[..n]), TotalWeight(w)))
  {
    var tw := TotalWeight(w);
    if n > 0 {
      QtysWithinShare(side, target, qty, spacing, w, n - 1);
      var t, size := LevelsUpTo(side, target, qty, spacing, w, n - 1), Times(qty, Ratio(w[n - 1], tw));
      QtySumSnoc(t, LevelTarget(n - 1, LevelPrice(side, target, n - 1, spacing), size));
      assert w[..n][..n - 1] == w[..n - 1];
      ShareAdds(qty, Sum(w[..n - 1]), w[n - 1], tw);
      hide LevelPrice, Times, Ratio, TotalWeight, Sum;
    }
  }

  lemma ShareAdds(qty: real, a: real, b: real, total: real)
    requires qty >= 0.0 && total > 0.0 && b >= 0.0
    ensures Times(qty, Ratio(a + b, total)) == Times(qty, Ratio(a, total)) + Times(qty, Ratio(b, total))
    ensures Times(qty, Ratio(b, total)) >= 0.0
  {
    assert Ratio(a + b, total) == Ratio(a, total) + Ratio(b, total);
    assert Ratio(b, total) >= 0.0;
  }

  lemma {:induction false} SumNotNegative(w: seq<real>)
    requires NotNegative(w)
    ensures Sum(w) >= 0.0
  {
    if w != [] {
      SumNotNegative(w[..|w| - 1]);
    }
  }

  /** With weights that are not negative the ladder asks for at most the target size. */
  lemma LadderWithinQty(side: Side, target: real, qty: real, tick: real, levels: int, spacingTicks: int,
                        weights: seq<real>)
    requires qty >= 0.0 && NotNegative(weights)
    ensures QtySum(LadderLevels(side, target, qty, tick, levels, spacingTicks, weights)) <= qty
  {
    var n := MaxInt(1, levels);
    var w := LevelWeights(weights, n);
    assert NotNegative(w);
    SumNotNegative(w);
    assert w[..n] == w;
    QtysWithinShare(side, target, qty, Times(MaxInt(1, spacingTicks) as real, tick), w, n);
    var tw := TotalWeight(w);
    assert Ratio(Sum(w), tw) <= 1.0;
    assert Times(qty, Ratio(Sum(w), tw)) <= qty;
  }

  /** The weight shares of the levels that are kept. */
  ghost function KeptShare(side: Side, target: real, qty: real, spacing: real, w: seq<real>, n: nat): real
    requires n <= |w|
  {
    if n == 0 then 0.0
    else
      var share := Ratio(w[n - 1], TotalWeight(w));
      KeptShare(side, target, qty, spacing, w, n - 1)
      + if LevelPrice(side, target, n - 1, spacing) > 0.0 && Times(qty, share) > 0.0 then share else 0.0
  }

  lemma {:induction false} QtysAreKeptShare(side: Side, target: real, qty: real, spacing: real, w: seq<real>, n: nat)
    requires n <= |w|
    ensures QtySum(LevelsUpTo(side, target, qty, spacing, w, n))
         == Times(qty, KeptShare(side, target, qty, spacing, w, n))
  {
    if n == 0 {
      assert Times(qty, 0.0) == 0.0;
    } else {
      QtysAreKeptShare(side, target, qty, spacing, w, n - 1);
      var t, share := LevelsUpTo(side, target, qty, spacing, w, n - 1), Ratio(w[n - 1], TotalWeight(w));
      QtySumSnoc(t, LevelTarget(n - 1, LevelPrice(side, target, n - 1, spacing), Times(qty, share)));
      TimesAdds(qty, KeptShare(side, target, qty, spacing, w, n - 1), share);
      hide LevelPrice, Times, Ratio, TotalWeight;
    }
  }

  /** Whatever the weights, the ladder asks for at most the target size exactly when
      the kept levels' shares add up to at most one. */
  lemma LadderWithinQtyIff(side: Side, target: real, qty: real, tick: real, levels: int, spacingTicks: int,
                           weights: seq<real>)
    requires qty > 0.0
    ensures var n, spacing := MaxInt(1, levels), Times(MaxInt(1, spacingTicks) as real, tick);
      QtySum(LadderLevels(side, target, qty, tick, levels, spacingTicks, weights)) <= qty
      <==> KeptShare(side, target, qty, spacing, LevelWeights(weights, n), n) <= 1.0
  {
    var n, spacing := MaxInt(1, levels), Times(MaxInt(1, spacingTicks) as real, tick);
    var w := LevelWeights(weights, n);
    QtysAreKeptShare(side, target, qty, spacing, w, n);
    var kept := KeptShare(side, target, qty, spacing, w, n);
    ShareAtMostOne(qty, kept);
    hide Times, KeptShare, LevelsUpTo, QtySum;
  }

  lemma ShareAtMostOne(qty: real, share: real)
    requires qty > 0.0
    ensures Times(qty, share) <= qty <==> share <= 1.0
  {
    if share <= 1.0 {
      assert qty * (1.0 - share) >= 0.0;
    } else {
      assert qty * (share - 1.0) > 0.0;
    }
  }

  /** A negative weight can break that: the other levels then get more than the target. */
  lemma NegativeWeightOvershoots()
    ensures QtySum(LadderLevels(Buy, 100.0, 1.0, 1.0, 2, 1, [2.0, -1.0])) == 2.0
  {
    var w := [2.0, -1.0];
    assert w[..2][..1] == [2.0] && [2.0][..0] == [] && w[..1] == [2.0];
    assert Sum([2.0]) == Sum([]) + 2.0 == 2.0;
    assert Sum(w) == Sum(w[..1]) + -1.0 == 1.0;
    assert TotalWeight(w) == 1.0;
    assert LevelPrice(Buy, 100.0, 0, Times(1.0, 1.0)) == 100.0;
    assert Times(1.0, Ratio(2.0, 1.0)) == 2.0 && Times(1.0, Ratio(-1.0, 1.0)) == -1.0;
    var one := LevelsUpTo(Buy, 100.0, 1.0, Times(1.0, 1.0), w, 1);
    assert one == [LevelTarget(0, 100.0, 2.0)];
    assert LevelsUpTo(Buy, 100.0, 1.0, Times(1.0, 1.0), w, 2) == one;
    assert one[..0] == [];
  }

  /** The levels kept when the per-symbol order limit is applied to one side. */
  function Truncated(t: seq<LevelTarget>, maxOrders: int): seq<LevelTarget>
    requires maxOrders >= 2
  {
    if |t| * 2 > maxOrders then t[..MaxInt(1, maxOrders / 2)] else t
  }

  lemma TruncationFits(t: seq<LevelTarget>, maxOrders: int, side: Side, target: real, n: nat)
    requires maxOrders >= 2 && Rungs(side, target, t, n)
    ensures |Truncated(t, maxOrders)| * 2 <= maxOrders && Rungs(side, target, Truncated(t, maxOrders), n)
  {
  }
}
