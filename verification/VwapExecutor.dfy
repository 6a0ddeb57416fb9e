/** Running a parent order slice by slice against an adversarial venue: partial
    fills, rejects, timeouts, cancellation at every suspension point, and the
    market order for the residual.  Parents are not reduce-only. */
module VwapExecutor {
  import opened Arithmetic
  import opened Collections
  import opened Slicer
  import opened VenueSizing

  /** A child order as the venue sees it. */
  datatype Order = Order(qty: real, filled: real, live: bool, isLimit: bool)

  predicate Proper(o: Order) { 0.0 <= o.filled <= o.qty }

  /** What the venue may do to an order: fill it up to its size or end it; an
      ended order is final. */
  predicate Moves(a: Order, b: Order) {
    && b.qty == a.qty && b.isLimit == a.isLimit && a.filled <= b.filled <= b.qty
    && (!a.live ==> b == a)
  }

  ghost predicate AllProper(orders: seq<Order>) { forall i :: 0 <= i < |orders| ==> Proper(orders[i]) }

  ghost predicate Evolves(a: seq<Order>, b: seq<Order>) {
    |a| == |b| && forall i :: 0 <= i < |a| ==> Moves(a[i], b[i])
  }

  lemma EvolvesTransitive(a: seq<Order>, b: seq<Order>, c: seq<Order>)
    requires Evolves(a, b) && Evolves(b, c)
    ensures Evolves(a, c)
  {
    assert forall i :: 0 <= i < |a| ==> Moves(a[i], b[i]) && Moves(b[i], c[i]);
  }

  // --- Exposure ------------------------------------------------------------------

  /** The most an order can still end up filling. */
  function Exposure(o: Order): real { if o.live then o.qty else o.filled }

  ghost function Committed(orders: seq<Order>): real {
    if orders == [] then 0.0 else Committed(orders[..|orders| - 1]) + Exposure(orders[|orders| - 1])
  }

  ghost function Filled(orders: seq<Order>): real {
    if orders == [] then 0.0 else Filled(orders[..|orders| - 1]) + orders[|orders| - 1].filled
  }

  lemma {:induction false} CommittedConcat(a: seq<Order>, b: seq<Order>)
    ensures Committed(a + b) == Committed(a) + Committed(b)
  {
    if b == [] {
      assert a + b == a;
    } else {
      CommittedConcat(a, b[..|b| - 1]);
      assert (a + b)[..|a + b| - 1] == a + b[..|b| - 1];
    }
  }

  /** Whatever the venue does later, fills only grow and stay within what was
      committed, and the commitment only shrinks. */
  lemma {:induction false} VenueStaysWithinCommitment(a: seq<Order>, b: seq<Order>)
    requires AllProper(a) && Evolves(a, b)
    ensures AllProper(b) && Filled(a) <= Filled(b) <= Committed(b) <= Committed(a)
  {
    if a != [] {
      var n := |a| - 1;
      assert Moves(a[n], b[n]) && Proper(a[n]);
      VenueStaysWithinCommitment(a[..n], b[..n]);
      assert forall i :: 0 <= i < |b| ==> i == n || b[i] == b[..n][i];
    }
  }

  // --- The order manager -----------------------------------------------------------

  datatype Reply = Done | Refused(reduceOnlyCode: bool) | Interrupted

  /** Is the task cancelled here, is a submit gated, does the venue take it, is a
      refusal the reduce-only one, does a cancel raise? */
  datatype Question = Interrupts | Gates | Takes | BlamesReduceOnly | KeepsOrder

  /** A venue decides, by the number of suspensions so far, what happens to the orders
      meanwhile and how requests end. */
  datatype Venue = Venue(settle: (nat, seq<Order>) -> seq<Order>, answer: (nat, Question) -> bool)

  predicate Settles(a: seq<Order>, b: seq<Order>) {
    |a| == |b| && forall i :: 0 <= i < |a| ==> Moves(a[i], b[i])
  }

  function FilledUp(o: Order): Order { if o.live then o.(filled := o.qty, live := false) else o }

  function AllFilled(orders: seq<Order>): seq<Order> {
    seq(|orders|, i requires 0 <= i < |orders| => FilledUp(orders[i]))
  }

  /** A venue that takes every order and fills it at once, with nobody cancelling. */
  ghost predicate Obliging(v: Venue) {
    && (forall n, orders :: v.settle(n, orders) == AllFilled(orders))
    && forall n :: v.answer(n, Takes) && !v.answer(n, Interrupts) && !v.answer(n, Gates)
  }

  ghost predicate NoneLive(orders: seq<Order>) { forall i :: 0 <= i < |orders| ==> !orders[i].live }

  lemma FilledUpSettles(orders: seq<Order>)
    requires AllProper(orders)
    ensures Settles(orders, AllFilled(orders)) && NoneLive(AllFilled(orders))
    ensures NoneLive(orders) ==> AllFilled(orders) == orders
  {
  }

  class OrderManager {
    const venue: Venue
    var orders: seq<Order>        // every child order sent, oldest first
    var children: map<nat, nat>   // slice slot of the client id -> latest order under it
    var clock: nat

    ghost predicate Valid()
      reads this
    {
      AllProper(orders) && forall k :: k in children ==> children[k] < |orders|
    }

    constructor (venue: Venue)
      ensures Valid() && orders == [] && children == map[] && this.venue == venue
    {
      this.venue, orders, children, clock := venue, [], map[], 0;
    }

    /** Anything the venue does while the executor is suspended; what no venue can do
        is ignored. */
    method Suspend()
      requires Valid()
      modifies this`orders, this`clock
      ensures Valid() && Evolves(old(orders), orders)
      ensures Obliging(venue) ==> orders == AllFilled(old(orders)) && NoneLive(orders)
    {
      var next := venue.settle(clock, orders);
      FilledUpSettles(orders);
      if Settles(orders, next) {
        assert forall i :: 0 <= i < |next| ==> Moves(orders[i], next[i]);
        orders := next;
      }
      clock := clock + 1;
    }

    /** submit_child: gated, refused by the venue (nothing is left live), placed, or
        interrupted at any point, in which case the order may be live. */
    method SubmitChild(slot: nat, qty: real, isLimit: bool) returns (reply: Reply)
      requires Valid() && qty >= 0.0
      modifies this
      ensures Valid() && |old(orders)| <= |orders| <= |old(orders)| + 1
      ensures Evolves(old(orders), orders[..|old(orders)|])
      ensures |orders| == |old(orders)| + 1 ==>
        var o := orders[|old(orders)|];
        && o.qty == qty && o.isLimit == isLimit && children == old(children)[slot := |old(orders)|]
        && (reply.Refused? ==> o == Order(qty, 0.0, false, isLimit))
      ensures |orders| == |old(orders)| ==> children == old(children)
      ensures reply.Done? ==> |orders| == |old(orders)| + 1
      ensures Obliging(venue) && NoneLive(old(orders)) ==>
        reply.Done? && orders == old(orders) + [Order(qty, qty, false, isLimit)]
    {
      FilledUpSettles(orders);
      Suspend();                      // waiting for the throttle
      if venue.answer(clock, Interrupts) {
        return Interrupted;
      }
      if venue.answer(clock, Gates) {
        return Refused(false);
      }
      ghost var before := orders;
      children := children[slot := |orders|];
      if !venue.answer(clock, Takes) {
        orders := orders + [Order(qty, 0.0, false, isLimit)];
        assert orders[..|before|] == before;
        return Refused(venue.answer(clock, BlamesReduceOnly));
      }
      orders := orders + [Order(qty, 0.0, true, isLimit)];
      ghost var sent := orders;
      Suspend();
      PrefixMoves(old(orders), before, sent, orders);
      PlacedFills(before, Order(qty, 0.0, true, isLimit));
      return if venue.answer(clock, Interrupts) then Interrupted else Done;
    }

    /** cancel: final when it returns; it may raise and leave the order as it is. */
    method Cancel(slot: nat) returns (reply: Reply)
      requires Valid()
      modifies this`orders, this`clock
      ensures Valid() && Evolves(old(orders), orders)
      ensures reply.Done? && slot in children ==> !orders[children[slot]].live
    {
      if slot !in children || !orders[children[slot]].live {
        return Done;
      }
      Suspend();
      if venue.answer(clock, KeepsOrder) {
        return if venue.answer(clock, Interrupts) then Interrupted else Refused(false);
      }
      var i := children[slot];
      EvolvesTransitive(old(orders), orders, orders[i := orders[i].(live := false)]);
      orders := orders[i := orders[i].(live := false)];
      reply := Done;
    }

    /** cancel_parent: every tracked child, failures ignored. */
    method CancelParent()
      requires Valid()
      modifies this`orders, this`clock
      ensures Valid() && Evolves(old(orders), orders)
    {
      var left := children.Keys;
      while left != {}
        invariant left <= children.Keys && Valid() && Evolves(old(orders), orders)
      {
        ghost var w := AnyOf(left);
        var slot :| slot in left;
        ghost var now := orders;
        var _ := Cancel(slot);
        EvolvesTransitive(old(orders), now, orders);
        left := left - {slot};
      }
    }
  }

  // --- One slice -------------------------------------------------------------------

  /** What the executor reads before a slice: the clamped passive price if there is
      one, whether the collar vetoes it, and the price used when there is none. */
  datatype View = View(passivePrice: Option<real>, vetoed: bool, lastPrice: Option<real>)

  datatype SliceOutcome = SliceDone | BadQty | Raised | Stopped

  function RefPrice(v: View): Option<real> { if v.passivePrice.Some? then v.passivePrice else v.lastPrice }

  function SliceQty(s: Slice, v: View, filters: Option<Filters>): real {
    VenueCapQty(s.qty, filters, v.passivePrice.None?)
  }

  function Min99(n: nat): nat { if n < 99 then n else 99 }

  /** A passive slice is judged at its own price, a market one at the last price; and the
      market order that stands in for a rejected passive one of slice n is number n + 50,
      or 99 from slice 49 on, which the market order for a residual has as well. */
  lemma PricesAndNumbers(v: View, n: nat)
    ensures forall p :: v.passivePrice == Some(p) ==> RefPrice(v) == Some(p)
    ensures v.passivePrice.None? ==> RefPrice(v) == v.lastPrice
    ensures n < 49 ==> Min99(n + 50) == n + 50 && Min99(n + 50) < 99
    ensures n >= 49 ==> Min99(n + 50) == 99
  {
  }

  /** The orders a slice can leave: nothing, its capped size if that is in bounds, or a
      dead limit order followed by a market order for exactly what it left. */
  ghost predicate SliceOrders(s: Slice, v: View, filters: Option<Filters>, sent: seq<Order>) {
    var q := SliceQty(s, v, filters);
    && |sent| <= 2 && AllProper(sent)
    && (|sent| >= 1 ==> sent[0].qty == q && VenueQtyInBounds(q, filters, RefPrice(v)))
    && (|sent| == 2 ==>
          && v.passivePrice.Some? && !sent[0].live && !sent[1].isLimit
          && (sent[1].qty == VenueCapQty(q - sent[0].filled, filters, false)
              || (sent[0].filled == 0.0 && sent[1].qty == q)))
  }

  predicate Vetoed(v: View) { v.passivePrice.Some? && v.vetoed }

  /** Vetoed, or of a capped size within bounds. */
  predicate Sendable(s: Slice, v: View, filters: Option<Filters>) {
    Vetoed(v) || VenueQtyInBounds(SliceQty(s, v, filters), filters, RefPrice(v))
  }

  /** The orders of a slice that a venue fills at once. */
  function FilledSlice(s: Slice, v: View, filters: Option<Filters>): seq<Order> {
    var q := SliceQty(s, v, filters);
    if Vetoed(v) then [] else [Order(q, q, false, v.passivePrice.Some?)]
  }

  function FilledSlices(schedule: seq<Slice>, views: seq<View>, filters: Option<Filters>): seq<Order>
    requires |schedule| == |views|
  {
    if schedule == [] then []
    else
      var n := |schedule| - 1;
      FilledSlices(schedule[..n], views[..n], filters) + FilledSlice(schedule[n], views[n], filters)
  }

  ghost predicate NoLiveLimit(orders: seq<Order>) {
    forall i :: 0 <= i < |orders| && orders[i].isLimit ==> !orders[i].live
  }

  /** A slice commits at most its size and 1e-15 for its two roundings each, and at
      most its size when no quantity that is raised can be sent. */
  lemma SliceCommitment(s: Slice, v: View, filters: Option<Filters>, sent: seq<Order>)
    requires s.qty >= 0.0 && Sensible(filters) && SliceOrders(s, v, filters, sent)
    ensures Committed(sent) <= s.qty + 2.0 * EPS
    ensures NeverOverfills(filters) ==> Committed(sent) <= s.qty
  {
    hide VenueCapQty, VenueQtyInBounds, CanOverfill, CanRaise;
    var q := SliceQty(s, v, filters);
    CapAlmostNeverRaises(s.qty, filters, v.passivePrice.None?);
    if |sent| >= 1 && NeverOverfills(filters) {
      SentIsNotRaised(s.qty, filters, v.passivePrice.None?, RefPrice(v), s.qty);
      if |sent| == 2 {
        SentIsNotRaised(s.qty, filters, false, RefPrice(v), q - sent[0].filled);
      }
    }
    if |sent| == 1 {
      assert Committed(sent) == Committed(sent[..0]) + Exposure(sent[0]) == Exposure(sent[0]);
    } else if |sent| == 2 {
      assert Committed(sent[..1]) == Committed(sent[..1][..0]) + Exposure(sent[0]) == sent[0].filled;
      CapAlmostNeverRaises(q - sent[0].filled, filters, false);
    } else {
      assert sent == [];
    }
  }

  /** If an order of the capped size is in bounds, neither it nor a residual of it is
      raised, unless the filters can overfill. */
  lemma SentIsNotRaised(qty: real, filters: Option<Filters>, marketOrder: bool, refPrice: Option<real>, residual: real)
    requires qty >= 0.0 && Sensible(filters) && !CanOverfill(filters, marketOrder)
    requires VenueQtyInBounds(VenueCapQty(qty, filters, marketOrder), filters, refPrice)
    requires 0.0 <= residual <= Max(qty, VenueCapQty(qty, filters, marketOrder))
    ensures VenueCapQty(residual, filters, marketOrder) <= residual
  {
    if filters.Some? && CapOf(filters.value, marketOrder).Some? && StepOf(filters.value) > 0.0 {
      hide FloorToStep, VenueQtyInBounds, CanOverfill;
      var step, cap := StepOf(filters.value), CapOf(filters.value, marketOrder).value;
      if VenueCapQty(qty, filters, marketOrder) > 0.0 {
        SentLotFits(qty, filters, marketOrder, refPrice);
      }
      FloorBounds(Min(qty, cap), step);
      FloorBounds(Min(residual, cap), step);
    }
  }

  class VwapExecutor {
    const marketFallback: bool
    const filters: Option<Filters>
    const om: OrderManager

    constructor (marketFallback: bool, filters: Option<Filters>, om: OrderManager)
      ensures this.marketFallback == marketFallback && this.filters == filters && this.om == om
    {
      this.marketFallback, this.filters, this.om := marketFallback, filters, om;
    }

    /** _await_terminal: polls until the order ends or the timeout passes. */
    method AwaitTerminal(slot: nat) returns (interrupted: bool)
      requires om.Valid()
      modifies om`orders, om`clock
      ensures om.Valid() && Evolves(old(om.orders), om.orders)
      ensures slot in om.children && !old(om.orders)[om.children[slot]].live ==>
        !interrupted && om.orders == old(om.orders)
    {
      var polls: int := *;
      while true
        invariant om.Valid() && Evolves(old(om.orders), om.orders)
        invariant slot in om.children && !old(om.orders)[om.children[slot]].live ==> om.orders == old(om.orders)
        decreases polls
      {
        if slot !in om.children || !om.orders[om.children[slot]].live || polls <= 0 {
          return false;
        }
        ghost var now := om.orders;
        om.Suspend();
        EvolvesTransitive(old(om.orders), now, om.orders);
        if om.venue.answer(om.clock, Interrupts) {
          return true;
        }
        polls := polls - 1;
      }
    }

    /** A market order, awaited. */
    method SendMarket(slot: nat, qty: real) returns (outcome: SliceOutcome)
      requires om.Valid() && qty >= 0.0
      modifies om
      ensures om.Valid() && |old(om.orders)| <= |om.orders| <= |old(om.orders)| + 1
      ensures Evolves(old(om.orders), om.orders[..|old(om.orders)|])
      ensures |om.orders| > |old(om.orders)| ==>
        om.orders[|old(om.orders)|].qty == qty && !om.orders[|old(om.orders)|].isLimit
      ensures !outcome.BadQty? && (outcome.SliceDone? ==> |om.orders| > |old(om.orders)|)
      ensures Obliging(om.venue) && NoneLive(old(om.orders)) ==>
        outcome.SliceDone? && om.orders == old(om.orders) + [Order(qty, qty, false, false)]
    {
      hide Obliging;
      var reply := om.SubmitChild(slot, qty, false);
      if !reply.Done? {
        return if reply.Interrupted? then Stopped else Raised;
      }
      ghost var sent := om.orders;
      var interrupted := AwaitTerminal(slot);
      KeepsPrefix(old(om.orders), sent, om.orders);
      return if interrupted then Stopped else SliceDone;
    }

    /** _await_fill_or_market, for the order last placed in `slot`. */
    method AwaitFillOrMarket(slot: nat) returns (outcome: SliceOutcome)
      requires om.Valid() && slot in om.children && om.children[slot] == |om.orders| - 1
      modifies om
      ensures om.Valid() && |old(om.orders)| <= |om.orders| <= |old(om.orders)| + 1
      ensures Evolves(old(om.orders), om.orders[..|old(om.orders)|])
      ensures |om.orders| > |old(om.orders)| ==>
        var i := |old(om.orders)|;
        && !om.orders[i - 1].live && !om.orders[i].isLimit
        && om.orders[i].qty == VenueCapQty(om.orders[i - 1].qty - om.orders[i - 1].filled, filters, false)
      ensures outcome.SliceDone? && marketFallback ==> !om.orders[|old(om.orders)| - 1].live
      ensures !outcome.BadQty?
      ensures !old(om.orders)[|old(om.orders)| - 1].live ==> outcome.SliceDone? && om.orders == old(om.orders)
    {
      var last := om.children[slot];
      var interrupted := AwaitTerminal(slot);
      if interrupted {
        return Stopped;
      }
      assert om.orders[..|om.orders|] == om.orders;
      if !om.orders[last].live || !marketFallback {
        return SliceDone;
      }
      ghost var waited := om.orders;
      var reply := om.Cancel(slot);
      EvolvesTransitive(old(om.orders), waited, om.orders);
      assert om.orders[..|om.orders|] == om.orders;
      if !reply.Done? {
        return if reply.Interrupted? then Stopped else Raised;
      }
      var child := om.orders[last];
      var residual := if child.qty - child.filled > 0.0 then child.qty - child.filled else 0.0;
      if residual <= 0.0 {
        return SliceDone;
      }
      residual := VenueCapQty(residual, filters, false);
      if residual <= 0.0 {
        return SliceDone;
      }
      ghost var cancelled := om.orders;
      outcome := SendMarket(99, residual);
      EvolvesTransitive(old(om.orders), cancelled, om.orders[..|cancelled|]);
      assert Moves(cancelled[last], om.orders[..|cancelled|][last]);
    }

    /** _submit_slice */
    method SubmitSlice(s: Slice, v: View) returns (outcome: SliceOutcome)
      requires om.Valid() && s.qty >= 0.0 && Sensible(filters)
      modifies om
      ensures om.Valid() && |om.orders| >= |old(om.orders)|
      ensures Evolves(old(om.orders), om.orders[..|old(om.orders)|])
      ensures SliceOrders(s, v, filters, om.orders[|old(om.orders)|..])
      ensures Vetoed(v) ==> outcome.SliceDone? && om.orders == old(om.orders)
      ensures outcome.BadQty? <==> !Sendable(s, v, filters)
      ensures outcome.BadQty? ==> om.orders == old(om.orders)
      ensures outcome.SliceDone? && !Vetoed(v) ==> |om.orders| > |old(om.orders)|
      ensures outcome.SliceDone? && marketFallback ==> NoLiveLimit(om.orders[|old(om.orders)|..])
      ensures Obliging(om.venue) && NoneLive(old(om.orders)) && Sendable(s, v, filters) ==>
        outcome.SliceDone? && om.orders == old(om.orders) + FilledSlice(s, v, filters)
    {
      hide Obliging;
      ghost var n := |om.orders|;
      assert om.orders[..n] == om.orders;
      if v.passivePrice.Some? && v.vetoed {
        return SliceDone;
      }
      var isLimit := v.passivePrice.Some?;
      var qty := VenueCapQty(s.qty, filters, !isLimit);
      if !VenueQtyInBounds(qty, filters, RefPrice(v)) {
        return BadQty;
      }
      CapNotNegative(s.qty, filters, !isLimit);
      hide VenueCapQty, VenueQtyInBounds;
      if !isLimit {
        outcome := SendMarket(s.index, qty);
        return;
      }
      var reply := om.SubmitChild(s.index, qty, true);
      if reply.Interrupted? {
        return Stopped;
      }
      ghost var sent := om.orders;
      if reply.Done? {
        outcome := AwaitFillOrMarket(s.index);
      } else if reply.reduceOnlyCode || !marketFallback {
        return Raised;
      } else {
        outcome := SendMarket(Min99(s.index + 50), qty);
      }
      KeepsTwo(old(om.orders), sent, om.orders);
    }

    /** _run_parent: sleep, submit, stop at the first slice that does not go
        through.  `slept` is the total sleeping time asked for. */
    method RunParent(schedule: seq<Slice>, views: seq<View>) returns (outcome: RunOutcome, ghost slept: real)
      requires om.Valid() && om.orders == [] && |views| == |schedule| && Sensible(filters)
      requires forall i :: 0 <= i < |schedule| ==> schedule[i].qty >= 0.0
      modifies om
      ensures om.Valid()
      ensures WithinSchedule(om.orders, schedule, filters)
      ensures outcome.Exhausted? && marketFallback ==> NoLiveLimit(om.orders)
      ensures outcome.Exhausted? && InOrder(schedule) ==> slept == LastDelay(schedule)
      ensures outcome.Exhausted? ==> |om.orders| >= Unvetoed(views) && AllSendable(schedule, views, filters)
      ensures Obliging(om.venue) && AllSendable(schedule, views, filters) ==>
        outcome.Exhausted? && om.orders == FilledSlices(schedule, views, filters)
    {
      hide Sendable, SliceQty, SliceOrders, Evolves, WithinSchedule, NoLiveLimit, AllSendable, Committed, Obliging;
      hide FilledSlice, FilledSlices, NoneLive, Vetoed;
      NothingSent(schedule, views, filters);
      var lastDelay := 0.0;
      slept := 0.0;
      for i := 0 to |schedule|
        invariant om.Valid()
        invariant WithinSchedule(om.orders, schedule[..i], filters)
        invariant marketFallback ==> NoLiveLimit(om.orders)
        invariant lastDelay == LastDelay(schedule[..i])
        invariant InOrder(schedule) ==> slept == lastDelay
        invariant |om.orders| >= Unvetoed(views[..i])
        invariant AllSendable(schedule[..i], views[..i], filters)
        invariant Obliging(om.venue) && AllSendable(schedule, views, filters) ==>
          om.orders == FilledSlices(schedule[..i], views[..i], filters)
      {
        FilledSnoc(schedule, views, i, filters);
        FilledUpSettles(om.orders);
        var s := schedule[i];
        var wait := s.delaySec - lastDelay;
        ghost var before := om.orders;
        if wait > 0.0 {
          slept := slept + wait;
          om.Suspend();
          StaysWithin(before, om.orders, schedule[..i], filters);
          LimitsStayDead(before, om.orders);
          ObligingNeverInterrupts(om.venue, om.clock);
          if om.venue.answer(om.clock, Interrupts) {
            RestOfSchedule(om.orders, schedule, i, filters);
            return Cancelled, slept;
          }
        }
        lastDelay := s.delaySec;
        ghost var waited := om.orders;
        var result := SubmitSlice(s, views[i]);
        SliceStaysWithin(waited, om.orders, schedule, i, views[i], filters);
        if !result.SliceDone? {
          RestOfSchedule(om.orders, schedule, i + 1, filters);
          if !result.Stopped? {
            ghost var aborted := om.orders;
            om.CancelParent();
            StaysWithin(aborted, om.orders, schedule, filters);
          }
          return if result.Stopped? then Cancelled else Aborted, slept;
        }
        LimitsJoin(waited, om.orders);
        assert views[..i + 1][..i] == views[..i];
        NextSendable(schedule, views, i, filters);
      }
      assert schedule[..|schedule|] == schedule && views[..|views|] == views;
      outcome := Exhausted;
    }
  }

  /** The orders up to `a`'s length keep evolving while more are appended. */
  lemma KeepsPrefix(a: seq<Order>, b: seq<Order>, c: seq<Order>)
    requires |a| <= |b| <= |c| && Evolves(a, b[..|a|]) && Evolves(b, c[..|b|])
    ensures Evolves(a, c[..|a|])
    ensures forall i :: |a| <= i < |b| ==> Moves(b[i], c[i])
  {
    forall i | 0 <= i < |b| ensures Moves(b[i], c[i]) {
      assert c[..|b|][i] == c[i];
    }
    forall i | 0 <= i < |a| ensures Moves(a[i], c[i]) {
      assert Moves(a[i], b[..|a|][i]);
    }
  }

  lemma KeepsTwo(a: seq<Order>, b: seq<Order>, c: seq<Order>)
    requires |a| <= |b| <= |c| && Evolves(a, b[..|a|]) && Evolves(b, c[..|b|])
    ensures Evolves(a, c[..|a|])
    ensures |a| < |b| ==> Moves(b[|a|], c[|a|])
    ensures |a| + 1 < |b| ==> Moves(b[|a| + 1], c[|a| + 1])
  {
    KeepsPrefix(a, b, c);
  }

  datatype RunOutcome = Exhausted | Aborted | Cancelled

  ghost function Unvetoed(views: seq<View>): nat {
    if views == [] then 0 else Unvetoed(views[..|views| - 1]) + (if Vetoed(views[|views| - 1]) then 0 else 1)
  }

  ghost predicate AllSendable(schedule: seq<Slice>, views: seq<View>, filters: Option<Filters>)
    requires |schedule| == |views|
  {
    forall i :: 0 <= i < |schedule| ==> Sendable(schedule[i], views[i], filters)
  }

  ghost predicate InOrder(s: seq<Slice>) {
    && (forall i :: 0 <= i < |s| ==> s[i].delaySec >= 0.0)
    && (forall i, j :: 0 <= i < j < |s| ==> s[i].delaySec <= s[j].delaySec)
  }

  function LastDelay(s: seq<Slice>): real { if s == [] then 0.0 else s[|s| - 1].delaySec }

  lemma LimitsStayDead(a: seq<Order>, b: seq<Order>)
    requires Evolves(a, b)
    ensures NoLiveLimit(a) ==> NoLiveLimit(b)
  {
    assert forall i :: 0 <= i < |a| ==> Moves(a[i], b[i]);
  }

  lemma LimitsJoin(a: seq<Order>, b: seq<Order>)
    requires |a| <= |b| && Evolves(a, b[..|a|])
    ensures NoLiveLimit(a) && NoLiveLimit(b[|a|..]) ==> NoLiveLimit(b)
  {
    LimitsStayDead(a, b[..|a|]);
    assert forall i :: 0 <= i < |b| ==> b[i] == if i < |a| then b[..|a|][i] else b[|a|..][i - |a|];
  }

  /** A slice adds at most its commitment to what was there. */
  lemma SliceAdds(a: seq<Order>, b: seq<Order>, s: Slice, v: View, filters: Option<Filters>)
    requires AllProper(a) && s.qty >= 0.0 && |a| <= |b| && Evolves(a, b[..|a|])
    requires Sensible(filters) && SliceOrders(s, v, filters, b[|a|..])
    ensures Committed(b) <= Committed(a) + s.qty + 2.0 * EPS
    ensures NeverOverfills(filters) ==> Committed(b) <= Committed(a) + s.qty
  {
    assert b == b[..|a|] + b[|a|..];
    CommittedConcat(b[..|a|], b[|a|..]);
    VenueStaysWithinCommitment(a, b[..|a|]);
    SliceCommitment(s, v, filters, b[|a|..]);
  }

  lemma NextQty(schedule: seq<Slice>, i: nat)
    requires i < |schedule|
    ensures Sum(QtysOf(schedule[..i + 1])) == Sum(QtysOf(schedule[..i])) + schedule[i].qty
  {
    assert QtysOf(schedule[..i + 1]) == QtysOf(schedule[..i]) + [schedule[i].qty];
    SumSnoc(QtysOf(schedule[..i]), schedule[i].qty);
  }

  /** The commitment is at most the scheduled quantity and 1e-15 for each rounding. */
  ghost predicate WithinSchedule(orders: seq<Order>, schedule: seq<Slice>, filters: Option<Filters>) {
    && Committed(orders) <= Sum(QtysOf(schedule)) + 2.0 * EPS * |schedule| as real
    && (NeverOverfills(filters) ==> Committed(orders) <= Sum(QtysOf(schedule)))
  }

  lemma NothingSent(schedule: seq<Slice>, views: seq<View>, filters: Option<Filters>)
    requires |schedule| == |views|
    ensures WithinSchedule([], schedule[..0], filters) && NoLiveLimit([])
    ensures AllSendable(schedule[..0], views[..0], filters)
    ensures FilledSlices(schedule[..0], views[..0], filters) == []
  {
    assert Committed([]) == 0.0 && QtysOf(schedule[..0]) == [] && Sum([]) == 0.0;
  }

  lemma StaysWithin(a: seq<Order>, b: seq<Order>, schedule: seq<Slice>, filters: Option<Filters>)
    requires AllProper(a) && Evolves(a, b) && WithinSchedule(a, schedule, filters)
    ensures WithinSchedule(b, schedule, filters)
  {
    VenueStaysWithinCommitment(a, b);
  }

  lemma SliceStaysWithin(a: seq<Order>, b: seq<Order>, schedule: seq<Slice>, i: nat, v: View, filters: Option<Filters>)
    requires i < |schedule| && schedule[i].qty >= 0.0
    requires AllProper(a) && WithinSchedule(a, schedule[..i], filters)
    requires |a| <= |b| && Evolves(a, b[..|a|])
    requires Sensible(filters) && SliceOrders(schedule[i], v, filters, b[|a|..])
    ensures WithinSchedule(b, schedule[..i + 1], filters)
  {
    SliceAdds(a, b, schedule[i], v, filters);
    NextQty(schedule, i);
    hide Committed, QtysOf, Sum, NeverOverfills, Sensible;
  }

  lemma NextSendable(schedule: seq<Slice>, views: seq<View>, i: nat, filters: Option<Filters>)
    requires i < |schedule| == |views| && AllSendable(schedule[..i], views[..i], filters)
    requires Sendable(schedule[i], views[i], filters)
    ensures AllSendable(schedule[..i + 1], views[..i + 1], filters)
  {
    hide Sendable;
    assert schedule[..i + 1] == schedule[..i] + [schedule[i]] && views[..i + 1] == views[..i] + [views[i]];
  }

  lemma {:induction false} RestOfSchedule(orders: seq<Order>, schedule: seq<Slice>, i: nat, filters: Option<Filters>)
    requires i <= |schedule| && forall j :: 0 <= j < |schedule| ==> schedule[j].qty >= 0.0
    requires WithinSchedule(orders, schedule[..i], filters)
    ensures WithinSchedule(orders, schedule, filters)
    decreases |schedule| - i
  {
    if i < |schedule| {
      NextQty(schedule, i);
      RestOfSchedule(orders, schedule, i + 1, filters);
    } else {
      assert schedule[..i] == schedule;
    }
  }

  lemma PlacedFills(before: seq<Order>, o: Order)
    requires AllProper(before) && Proper(o) && o.live
    ensures NoneLive(before) ==> AllFilled(before + [o]) == before + [o.(filled := o.qty, live := false)]
  {
  }

  lemma PrefixMoves(a: seq<Order>, b: seq<Order>, sent: seq<Order>, c: seq<Order>)
    requires Evolves(a, b) && |sent| == |b| + 1 && sent[..|b|] == b && Evolves(sent, c)
    ensures Evolves(a, c[..|a|]) && Moves(sent[|b|], c[|b|])
  {
    forall i | 0 <= i < |a| ensures Moves(a[i], c[..|a|][i]) {
      assert Moves(a[i], b[i]) && sent[i] == sent[..|b|][i] && Moves(sent[i], c[i]);
    }
  }

  lemma ObligingNeverInterrupts(v: Venue, n: nat)
    ensures Obliging(v) ==> !v.answer(n, Interrupts)
  {
  }

  lemma {:induction false} FilledSlicesEnded(schedule: seq<Slice>, views: seq<View>, filters: Option<Filters>)
    requires |schedule| == |views|
    ensures NoneLive(FilledSlices(schedule, views, filters))
  {
    if schedule != [] {
      var n := |schedule| - 1;
      FilledSlicesEnded(schedule[..n], views[..n], filters);
    }
  }

  lemma FilledSnoc(schedule: seq<Slice>, views: seq<View>, i: nat, filters: Option<Filters>)
    requires i < |schedule| == |views|
    ensures FilledSlices(schedule[..i + 1], views[..i + 1], filters)
         == FilledSlices(schedule[..i], views[..i], filters) + FilledSlice(schedule[i], views[i], filters)
    ensures NoneLive(FilledSlices(schedule[..i], views[..i], filters))
    ensures AllSendable(schedule, views, filters) ==> Sendable(schedule[i], views[i], filters)
  {
    assert schedule[..i + 1][..i] == schedule[..i] && views[..i + 1][..i] == views[..i];
    FilledSlicesEnded(schedule[..i], views[..i], filters);
  }

  /** execute and its task: on any schedule search and any venue, the parent fills
      at most its quantity plus 1e-15 for each of the two roundings of a slice, and
      at most its quantity unless a quantity that is raised can be sent. */
  method Execute(mode: AlgoMode, qty: real, duration: real, requested: int, exp: Exp, filters: Option<Filters>,
                 refPrice: Option<real>, marketFallback: bool, views: seq<View>, venue: Venue)
    returns (om: OrderManager, outcome: RunOutcome, schedule: Result<seq<Slice>>)
    requires Positive(exp) && Sensible(filters) && requested <= |views| && |views| >= 1
    ensures om.Valid() && (schedule.Ok? <==> qty > 0.0 && duration > 0.0)
    ensures schedule.ValueError? ==> om.orders == []
    ensures schedule.Ok? ==>
      && Schedules(schedule.value, qty, duration) && |schedule.value| <= |views|
      && (|schedule.value| <= requested || |schedule.value| == 1)
      && Filled(om.orders) <= Committed(om.orders) <= qty + 2.0 * EPS * |views| as real
      && (NeverOverfills(filters) ==> Committed(om.orders) <= qty)
      && (outcome.Exhausted? && marketFallback ==> NoLiveLimit(om.orders))
      && (Obliging(venue) && AllSendable(schedule.value, views[..|schedule.value|], filters) ==>
            outcome.Exhausted? && om.orders == FilledSlices(schedule.value, views[..|schedule.value|], filters))
  {
    om := new OrderManager(venue);
    schedule := BuildViableSchedule(mode, qty, duration, requested, exp, filters, refPrice);
    if schedule.ValueError? {
      return om, Aborted, schedule;
    }
    hide Obliging, AllSendable, NeverOverfills, NoLiveLimit;
    var executor := new VwapExecutor(marketFallback, filters, om);
    var n := |schedule.value|;
    ghost var slept;
    outcome, slept := executor.RunParent(schedule.value, views[..n]);
    VenueStaysWithinCommitment(om.orders, om.orders);
  }

  /** Whenever the filters let a raised quantity be sent, some parent is overfilled: one
      slice just below the largest lot, at a venue that fills it. */
  method OverfillingRun(filters: Option<Filters>, marketOrder: bool) returns (qty: real, om: OrderManager)
    requires Sensible(filters) && CanOverfill(filters, marketOrder)
    ensures qty > 0.0 && om.Valid() && Filled(om.orders) > qty
  {
    var venue := Venue((n, orders) => AllFilled(orders), (n, q: Question) => q == Takes);
    qty := BelowLargestLot(filters, marketOrder);
    BelowLargestIsRaised(filters, marketOrder);
    var view := View(if marketOrder then None else Some(AffordablePrice(filters.value, marketOrder)), false, None);
    assert Obliging(venue);
    hide Obliging, Schedules;
    var outcome, schedule;
    om, outcome, schedule := Execute(Normal, qty, 1.0, 1, x => 1.0, filters, None, true, [view], venue);
    assert [view][..1] == [view];
    LoneOverfill(schedule.value, qty, view, filters, marketOrder);
  }

  /** A price at which the largest lot has the minimum notional. */
  function AffordablePrice(f: Filters, marketOrder: bool): (price: real)
    requires CanOverfill(Some(f), marketOrder)
    ensures f.minNotional.Some? ==> LargestLot(f, marketOrder) * price >= f.minNotional.value
  {
    if f.minNotional.Some? then f.minNotional.value / LargestLot(f, marketOrder) else 1.0
  }

  lemma {:induction false} LoneOverfill(schedule: seq<Slice>, qty: real, v: View, filters: Option<Filters>,
                                        marketOrder: bool)
    requires Sensible(filters) && CanOverfill(filters, marketOrder) && qty == BelowLargestLot(filters, marketOrder)
    requires Schedules(schedule, qty, 1.0) && |schedule| == 1
    requires v == View(if marketOrder then None else Some(AffordablePrice(filters.value, marketOrder)), false, None)
    ensures AllSendable(schedule, [v], filters)
    ensures Filled(FilledSlices(schedule, [v], filters)) > qty
  {
    BelowLargestIsRaised(filters, marketOrder);
    LargestLotInBounds(filters, marketOrder, v.passivePrice);
    assert QtysOf(schedule) == [schedule[0].qty];
    assert Sum([schedule[0].qty]) == Sum([schedule[0].qty][..0]) + schedule[0].qty;
    assert schedule[0].qty == qty;
    hide VenueCapQty, VenueQtyInBounds, LargestLot, BelowLargestLot, CanOverfill, QtysOf;
    var sent := FilledSlices(schedule, [v], filters);
    assert FilledSlices(schedule[..0], [v][..0], filters) == [];
    assert sent == FilledSlice(schedule[0], v, filters);
    assert Filled(sent) == Filled(sent[..0]) + sent[0].filled;
  }
}
