/** Market-making orders at the venue, and the lists of quotes that mirror the orders
    of one side of one symbol. */
module QuoteBook {
  import opened Collections
  import opened Enums
  import opened MmExecution

  type Symbol = string
  type OrderId = nat

  // --- Orders as the order manager knows them -----------------------------------------

  /** `withdrawn` marks an order that a cancel of ours ended or that was refused. */
  datatype Order = Order(
    symbol: Symbol, side: Side, price: real, qty: real, filled: real, live: bool, withdrawn: bool, postOnly: bool)

  type Orders = map<OrderId, Order>

  /** What may happen to an order: it fills or it ends; ended is final. */
  predicate Moves(a: Order, b: Order) {
    && b.symbol == a.symbol && b.side == a.side && b.price == a.price && b.qty == a.qty && b.postOnly == a.postOnly
    && a.filled <= b.filled && (!a.live ==> b == a)
  }

  /** What the venue may do to an order by itself. */
  predicate VenueMoves(a: Order, b: Order) {
    Moves(a, b) && b.withdrawn == a.withdrawn
  }

  ghost predicate Evolves(a: Orders, b: Orders) {
    a.Keys <= b.Keys && forall id :: id in a ==> Moves(a[id], b[id])
  }

  predicate Settles(a: Orders, b: Orders) {
    a.Keys == b.Keys && forall id :: id in a ==> VenueMoves(a[id], b[id])
  }

  /** Only the venue moved the orders outside `ids`; a quiet venue moves none. */
  ghost predicate OthersKept(a: Orders, b: Orders, ids: set<OrderId>, quiet: bool) {
    forall id :: id in a && id in b && id !in ids ==> VenueMoves(a[id], b[id]) && (quiet ==> b[id] == a[id])
  }

  lemma EvolvesTransitive(a: Orders, b: Orders, c: Orders)
    requires Evolves(a, b) && Evolves(b, c)
    ensures Evolves(a, c)
  {
    assert forall id :: id in a ==> Moves(a[id], b[id]) && Moves(b[id], c[id]);
  }

  lemma KeptTransitive(a: Orders, b: Orders, c: Orders, ids: set<OrderId>, quiet: bool)
    requires a.Keys <= b.Keys && OthersKept(a, b, ids, quiet) && OthersKept(b, c, ids, quiet)
    ensures OthersKept(a, c, ids, quiet)
  {
    assert forall id :: id in a && id in c && id !in ids ==> VenueMoves(a[id], b[id]) && VenueMoves(b[id], c[id]);
  }

  lemma SelfKept(o: Orders, ids: set<OrderId>, quiet: bool)
    ensures OthersKept(o, o, ids, quiet)
  {
  }

  /** One more step that touches one of the orders set aside. */
  lemma KeptAlso(a: Orders, b: Orders, c: Orders, ids: set<OrderId>, id: OrderId, quiet: bool)
    requires a.Keys <= b.Keys && OthersKept(a, b, ids, quiet) && OthersKept(b, c, {id}, quiet) && id in ids
    ensures OthersKept(a, c, ids, quiet)
  {
    assert OthersKept(b, c, ids, quiet);
    KeptTransitive(a, b, c, ids, quiet);
  }

  lemma SelfEvolves(o: Orders)
    ensures Evolves(o, o) && OthersKept(o, o, {}, true)
  {
  }

  // --- The venue ------------------------------------------------------------------------

  datatype Error = Error(code: Option<int>, status: Option<int>)

  datatype Submitted = Placed(id: OrderId) | Refused(error: Error)

  /** Does a submit raise before it reaches the venue, does the venue refuse it, does a
      cancel of this order raise? */
  datatype Question = Gates | Refuses | Keeps(order: Order)

  /** A venue decides, by the number of times the executor was suspended so far, what
      happens meanwhile and how requests end.  One without `settle` moves nothing by
      itself. */
  datatype Venue = Venue(
    settle: Option<(nat, Orders) -> Orders>, answer: (nat, Question) -> bool, error: nat -> Error)

  ghost predicate Accepts(v: Venue) {
    forall n :: !v.answer(n, Gates) && !v.answer(n, Refuses)
  }

  /** Every cancel on this side returns. */
  ghost predicate Yields(v: Venue, side: Side) {
    forall n, o: Order :: o.side == side ==> !v.answer(n, Keeps(o))
  }

  /** Every cancel of a live order of this side raises, and nothing else happens. */
  ghost predicate Holds(v: Venue, side: Side) {
    v.settle.None? && forall n, o: Order :: o.side == side ==> v.answer(n, Keeps(o))
  }

  /** Every order is live, was ended by a cancel of ours, or was refused. */
  ghost predicate OnlyWithdrawn(o: Orders) {
    forall id :: id in o ==> o[id].live || o[id].withdrawn
  }

  class OrderManager {
    const venue: Venue
    var orders: Orders
    var nextId: OrderId
    var clock: nat

    ghost predicate Valid()
      reads this
    {
      && (forall id :: id in orders ==> id < nextId && (orders[id].withdrawn ==> !orders[id].live))
      && (venue.settle.None? ==> OnlyWithdrawn(orders))
    }

    constructor (venue: Venue)
      ensures Valid() && orders == map[] && this.venue == venue
    {
      this.venue, orders, nextId, clock := venue, map[], 0, 0;
    }

    /** Fills, expiries and cancels that arrive while the executor is suspended; what
        no venue can do is ignored. */
    method Suspend()
      requires Valid()
      modifies this`orders, this`clock
      ensures Valid() && Settles(old(orders), orders)
      ensures venue.settle.None? ==> orders == old(orders)
    {
      if venue.settle.Some? {
        var next := venue.settle.value(clock, orders);
        if Settles(orders, next) {
          assert forall id :: id in next ==> VenueMoves(orders[id], next[id]);
          orders := next;
        }
      }
      clock := clock + 1;
    }

    /** submit_child: a raising submit leaves nothing live. */
    method SubmitChild(symbol: Symbol, side: Side, price: real, qty: real, postOnly: bool) returns (r: Submitted)
      requires Valid()
      modifies this
      ensures Valid() && Evolves(old(orders), orders) && OthersKept(old(orders), orders, {}, venue.settle.None?)
      ensures forall id :: id in orders ==> id in old(orders) || id == old(nextId)
      ensures old(nextId) !in old(orders)
      ensures old(nextId) in orders ==> var o := orders[old(nextId)];
        && o.symbol == symbol && o.side == side && o.price == price && o.qty == qty && o.postOnly == postOnly
        && (o.live ==> r == Placed(old(nextId))) && (o.withdrawn <==> r.Refused?)
      ensures r.Placed? ==> r.id == old(nextId) && r.id in orders
      ensures old(nextId) !in orders ==> r == Refused(Error(None, None))
      ensures Accepts(venue) ==> r.Placed?
    {
      Suspend();
      if venue.answer(clock, Gates) {
        return Refused(Error(None, None));
      }
      var id, refused := nextId, venue.answer(clock, Refuses);
      nextId := nextId + 1;
      ghost var before := orders;
      orders := orders[id := Order(symbol, side, price, qty, 0.0, !refused, refused, postOnly)];
      EvolvesTransitive(old(orders), before, orders);
      if refused {
        return Refused(venue.error(clock));
      }
      ghost var sent := orders;
      Suspend();
      EvolvesTransitive(old(orders), sent, orders);
      KeptTransitive(old(orders), sent, orders, {}, venue.settle.None?);
      assert VenueMoves(sent[id], orders[id]);
      r := Placed(id);
    }

    /** cancel: final when it returns; it may raise and leave the order as it is. */
    method Cancel(id: OrderId) returns (ok: bool)
      requires Valid()
      modifies this`orders, this`clock
      ensures Valid() && Evolves(old(orders), orders) && OthersKept(old(orders), orders, {id}, venue.settle.None?)
      ensures orders.Keys == old(orders.Keys)
      ensures ok && id in orders ==> !orders[id].live
      ensures !ok ==> Settles(old(orders), orders)
      ensures id in old(orders) && Yields(venue, old(orders)[id].side) ==> ok
      ensures id in old(orders) && Holds(venue, old(orders)[id].side) ==>
        ok == !old(orders)[id].live && orders == old(orders)
    {
      if id !in orders || !orders[id].live {
        return true;
      }
      Suspend();
      assert VenueMoves(old(orders)[id], orders[id]);
      if venue.answer(clock, Keeps(orders[id])) {
        return false;
      }
      if orders[id].live {
        EvolvesTransitive(old(orders), orders, orders[id := orders[id].(live := false, withdrawn := true)]);
        orders := orders[id := orders[id].(live := false, withdrawn := true)];
      }
      ok := true;
    }
  }

  // --- Quotes -----------------------------------------------------------------------------

  datatype Quote = Quote(id: OrderId, side: Side, price: real, qty: real, level: nat, posted: real)

  ghost function Ids(levels: seq<Quote>): set<OrderId> { set i | 0 <= i < |levels| :: levels[i].id }

  predicate Apart(x: Quote, y: Quote) { x.level != y.level && x.id != y.id }

  /** No two entries share a level index or an order. */
  ghost predicate Distinct(levels: seq<Quote>) {
    forall i, j :: 0 <= i < j < |levels| ==> Apart(levels[i], levels[j])
  }

  /** Every entry stands for an order of this side of this symbol. */
  ghost predicate Belong(levels: seq<Quote>, o: Orders, symbol: Symbol, side: Side) {
    forall id :: id in Ids(levels) ==> id in o && o[id].symbol == symbol && o[id].side == side
  }

  /** No entry stands for an order that a cancel of ours ended or that was refused. */
  ghost predicate NoneWithdrawn(levels: seq<Quote>, o: Orders) {
    forall id :: id in Ids(levels) && id in o ==> !o[id].withdrawn
  }

  ghost predicate AllLive(levels: seq<Quote>, o: Orders) {
    forall id :: id in Ids(levels) ==> id in o && o[id].live
  }

  /** At a quiet venue the entries that were not withdrawn are live. */
  lemma StandingIsLive(levels: seq<Quote>, o: Orders, symbol: Symbol, side: Side)
    requires Belong(levels, o, symbol, side) && NoneWithdrawn(levels, o) && OnlyWithdrawn(o)
    ensures AllLive(levels, o)
  {
    hide Ids;
  }

  lemma InIds(levels: seq<Quote>, id: OrderId)
    ensures id in Ids(levels) <==> exists w :: w in levels && w.id == id
  {
    if id in Ids(levels) {
      var i :| 0 <= i < |levels| && levels[i].id == id;
      assert levels[i] in levels;
    }
    if w :| w in levels && w.id == id {
      var i :| 0 <= i < |levels| && levels[i] == w;
      assert levels[i].id == id;
    }
  }

  lemma IdsSnoc(levels: seq<Quote>, w: Quote)
    ensures Ids(levels + [w]) == Ids(levels) + {w.id} && Ids([]) == {}
  {
    assert forall i :: 0 <= i < |levels| ==> (levels + [w])[i] == levels[i];
    assert (levels + [w])[|levels|] == w;
  }

  lemma LastApart(levels: seq<Quote>)
    requires levels != [] && Distinct(levels)
    ensures Distinct(levels[..|levels| - 1])
    ensures var init, w := levels[..|levels| - 1], levels[|levels| - 1]; forall x :: x in init ==> Apart(x, w)
  {
  }

  lemma DistinctSnoc(levels: seq<Quote>, w: Quote)
    requires Distinct(levels) && forall x :: x in levels ==> Apart(x, w)
    ensures Distinct(levels + [w])
  {
    hide Apart;
    forall i, j | 0 <= i < j < |levels + [w]| ensures Apart((levels + [w])[i], (levels + [w])[j]) {
      if j == |levels| {
        assert levels[i] in levels;
      }
    }
  }

  // --- Lists: pruning, removal, sorting ---------------------------------------------------

  /** Entries whose order is still working; _prune_stale_levels. */
  function Pruned(levels: seq<Quote>, o: Orders): seq<Quote> {
    if levels == [] then []
    else
      var init, w := levels[..|levels| - 1], levels[|levels| - 1];
      Pruned(init, o) + if w.id in o && o[w.id].live then [w] else []
  }

  lemma {:induction false} PrunedMembers(levels: seq<Quote>, o: Orders)
    ensures forall w :: w in Pruned(levels, o) <==> w in levels && w.id in o && o[w.id].live
    ensures Distinct(levels) ==> Distinct(Pruned(levels, o))
    ensures |Pruned(levels, o)| <= |levels|
  {
    if levels != [] {
      var init, w := levels[..|levels| - 1], levels[|levels| - 1];
      PrunedMembers(init, o);
      assert init + [w] == levels && Pruned(init, o) + [] == Pruned(init, o);
      if Distinct(levels) {
        LastApart(levels);
        hide Distinct, Apart;
        if w.id in o && o[w.id].live {
          DistinctSnoc(Pruned(init, o), w);
        }
      }
    }
  }

  /** Pruning keeps exactly the entries whose order is live. */
  lemma PrunedKeeps(levels: seq<Quote>, o: Orders)
    ensures forall id :: id in Ids(Pruned(levels, o)) <==> id in Ids(levels) && id in o && o[id].live
    ensures Distinct(levels) ==> Distinct(Pruned(levels, o))
    ensures forall w :: w in Pruned(levels, o) ==> w in levels
    ensures |Pruned(levels, o)| <= |levels|
  {
    PrunedMembers(levels, o);
    hide Pruned, Ids, Distinct;
    forall id ensures id in Ids(Pruned(levels, o)) <==> id in Ids(levels) && id in o && o[id].live {
      InIds(levels, id);
      InIds(Pruned(levels, o), id);
    }
  }

  /** Pruning keeps a list whose orders are all live. */
  lemma {:induction false} PrunedSame(levels: seq<Quote>, o: Orders)
    requires forall w :: w in levels ==> w.id in o && o[w.id].live
    ensures Pruned(levels, o) == levels
  {
    if levels != [] {
      var init, w := levels[..|levels| - 1], levels[|levels| - 1];
      assert init + [w] == levels;
      PrunedSame(init, o);
    }
  }

  function Without(levels: seq<Quote>, w: Quote): seq<Quote> {
    if levels == [] then []
    else Without(levels[..|levels| - 1], w) + if levels[|levels| - 1] == w then [] else [levels[|levels| - 1]]
  }

  lemma {:induction false} WithoutKeeps(levels: seq<Quote>, w: Quote)
    ensures forall x :: x in Without(levels, w) <==> x in levels && x != w
    ensures Distinct(levels) ==> Distinct(Without(levels, w))
  {
    if levels != [] {
      var init, x := levels[..|levels| - 1], levels[|levels| - 1];
      WithoutKeeps(init, w);
      assert init + [x] == levels && Without(init, w) + [] == Without(init, w);
      if Distinct(levels) {
        LastApart(levels);
        hide Distinct, Apart;
        if x != w {
          DistinctSnoc(Without(init, w), x);
        }
      }
    }
  }

  /** What is left after an entry went shares neither its level nor its order. */
  lemma LevelFreed(levels: seq<Quote>, w: Quote)
    requires Distinct(levels) && w in levels
    ensures forall x :: x in Without(levels, w) ==> Apart(x, w)
    ensures Ids(Without(levels, w)) == Ids(levels) - {w.id}
  {
    WithoutKeeps(levels, w);
    var j :| 0 <= j < |levels| && levels[j] == w;
    forall x | x in Without(levels, w) ensures Apart(x, w) {
      var i :| 0 <= i < |levels| && levels[i] == x;
    }
    hide Distinct, Ids, Without;
    forall id ensures id in Ids(Without(levels, w)) <==> id in Ids(levels) && id != w.id {
      InIds(levels, id);
      InIds(Without(levels, w), id);
    }
  }

  ghost predicate SortedByLevel(levels: seq<Quote>) {
    forall i, j :: 0 <= i < j < |levels| ==> levels[i].level <= levels[j].level
  }

  function Insert(sorted: seq<Quote>, w: Quote): seq<Quote> {
    if sorted == [] || sorted[|sorted| - 1].level <= w.level then sorted + [w]
    else Insert(sorted[..|sorted| - 1], w) + [sorted[|sorted| - 1]]
  }

  /** sorted(levels, key=level_index) */
  function Sorted(levels: seq<Quote>): seq<Quote> {
    if levels == [] then [] else Insert(Sorted(levels[..|levels| - 1]), levels[|levels| - 1])
  }

  lemma {:induction false} InsertKeeps(sorted: seq<Quote>, w: Quote)
    requires SortedByLevel(sorted)
    ensures SortedByLevel(Insert(sorted, w)) && multiset(Insert(sorted, w)) == multiset(sorted) + multiset{w}
  {
    InsertMembers(sorted, w);
    if sorted != [] && sorted[|sorted| - 1].level > w.level {
      var init, x := sorted[..|sorted| - 1], sorted[|sorted| - 1];
      InsertKeeps(init, w);
      var t := Insert(init, w);
      InsertMembers(init, w);
      forall i | 0 <= i < |t| ensures t[i].level <= x.level {
        assert t[i] in t;
      }
    }
  }

  lemma {:induction false} InsertMembers(sorted: seq<Quote>, w: Quote)
    ensures multiset(Insert(sorted, w)) == multiset(sorted) + multiset{w}
    ensures forall x :: x in Insert(sorted, w) ==> x == w || x in sorted
  {
    if sorted != [] && sorted[|sorted| - 1].level > w.level {
      InsertMembers(sorted[..|sorted| - 1], w);
      assert sorted == sorted[..|sorted| - 1] + [sorted[|sorted| - 1]];
    }
  }

  lemma {:induction false} InsertDistinct(sorted: seq<Quote>, w: Quote)
    requires Distinct(sorted) && forall x :: x in sorted ==> Apart(x, w)
    ensures Distinct(Insert(sorted, w))
  {
    if sorted != [] && sorted[|sorted| - 1].level > w.level {
      var init, x := sorted[..|sorted| - 1], sorted[|sorted| - 1];
      assert sorted == init + [x];
      LastApart(sorted);
      hide Distinct;
      InsertDistinct(init, w);
      InsertMembers(init, w);
      assert Apart(x, w);
      DistinctSnoc(Insert(init, w), x);
    } else {
      DistinctSnoc(sorted, w);
    }
  }

  lemma {:induction false} SortKeeps(levels: seq<Quote>)
    ensures SortedByLevel(Sorted(levels)) && multiset(Sorted(levels)) == multiset(levels)
    ensures |Sorted(levels)| == |levels|
  {
    if levels != [] {
      var init, w := levels[..|levels| - 1], levels[|levels| - 1];
      SortKeeps(init);
      InsertKeeps(Sorted(init), w);
      assert levels == init + [w];
      hide Insert, SortedByLevel;
      assert |multiset(Sorted(levels))| == |multiset(levels)|;
    }
  }

  lemma SortMembers(levels: seq<Quote>)
    ensures forall w :: w in Sorted(levels) <==> w in levels
    ensures Ids(Sorted(levels)) == Ids(levels)
  {
    SortKeeps(levels);
    assert forall w :: w in levels <==> w in multiset(levels);
    assert forall w :: w in Sorted(levels) <==> w in multiset(Sorted(levels));
    hide Sorted, Ids, SortedByLevel;
    forall id ensures id in Ids(levels) <==> id in Ids(Sorted(levels)) {
      InIds(levels, id);
      InIds(Sorted(levels), id);
    }
  }

  lemma {:induction false} SortDistinct(levels: seq<Quote>)
    requires Distinct(levels)
    ensures Distinct(Sorted(levels))
  {
    if levels != [] {
      var init := levels[..|levels| - 1];
      LastApart(levels);
      hide Insert, Distinct, Apart;
      SortDistinct(init);
      SortMembers(init);
      InsertDistinct(Sorted(init), levels[|levels| - 1]);
    }
  }

  predicate Wanted(level: nat, targets: seq<LevelTarget>) {
    exists i :: 0 <= i < |targets| && targets[i].level == level
  }

  /** Entries with distinct wanted levels are at most as many as the targets. */
  lemma {:induction false} WantedCount(levels: seq<Quote>, targets: seq<LevelTarget>)
    requires Distinct(levels) && forall w :: w in levels ==> Wanted(w.level, targets)
    ensures |levels| <= |targets|
    decreases |levels|
  {
    if levels != [] {
      var init, w := levels[..|levels| - 1], levels[|levels| - 1];
      var k :| 0 <= k < |targets| && targets[k].level == w.level;
      var rest := targets[..k] + targets[k + 1..];
      forall x | x in init ensures Wanted(x.level, rest) {
        var i :| 0 <= i < |init| && init[i] == x;
        assert levels[i] == x && levels[|levels| - 1] == w;
        var j :| 0 <= j < |targets| && targets[j].level == x.level;
        assert j != k;
        assert rest[if j < k then j else j - 1].level == x.level;
      }
      WantedCount(init, rest);
    }
  }

  /** working_by_idx.get: the last entry at a level. */
  function Find(levels: seq<Quote>, level: nat): (r: Option<Quote>)
    ensures r.Some? ==> r.value in levels && r.value.level == level
    ensures r.None? ==> forall w :: w in levels ==> w.level != level
  {
    if levels == [] then None
    else if levels[|levels| - 1].level == level then Some(levels[|levels| - 1])
    else Find(levels[..|levels| - 1], level)
  }

  // --- The mirror of one side ---------------------------------------------------------------

  /** One side of one symbol: where its post-only orders may be placed (in the place
      zone and not crossing, except at the listed stale climb prices), and whether
      its venue is quiet. */
  datatype Rule = Rule(symbol: Symbol, side: Side, touch: Touch, placeBps: real, stale: set<real>, quiet: bool)

  predicate PriceFits(price: real, rule: Rule) {
    && WithinPlaceZone(rule.side, price, rule.touch, rule.placeBps)
    && (!Crosses(rule.side, price, rule.touch) || price in rule.stale)
  }

  /** Every new order belongs to this side of this symbol. */
  ghost predicate NewOn(before: Orders, after: Orders, symbol: Symbol, side: Side) {
    forall id :: id in after && id !in before ==> after[id].symbol == symbol && after[id].side == side
  }

  ghost predicate NewFit(before: Orders, after: Orders, rule: Rule) {
    forall id :: id in after && id !in before && after[id].postOnly ==> PriceFits(after[id].price, rule)
  }

  /** The central relation of one side: from `before` with `levels` to `after` with
      `next`, every order that is still live and was tracked, or is new, is tracked by
      `next` or lost; `next` holds nothing but former entries and new orders; and
      orders that were not tracked are moved by nobody but the venue. */
  ghost predicate Synced(before: Orders, after: Orders, rule: Rule,
                         levels: seq<Quote>, next: seq<Quote>, lost: set<OrderId>) {
    && Evolves(before, after) && NewOn(before, after, rule.symbol, rule.side)
    && OthersKept(before, after, Ids(levels), rule.quiet)
    && (forall id :: id in after && after[id].live && (id in Ids(levels) || id !in before) ==>
          id in Ids(next) || id in lost)
    && (forall id :: id in Ids(next) ==> id in Ids(levels) || (id !in before && id in after))
  }

  lemma SyncedChain(a: Orders, b: Orders, c: Orders, rule: Rule,
                    x: seq<Quote>, y: seq<Quote>, z: seq<Quote>, d: set<OrderId>, e: set<OrderId>)
    requires Synced(a, b, rule, x, y, d) && Synced(b, c, rule, y, z, e)
    ensures Synced(a, c, rule, x, z, d + e)
  {
    EvolvesTransitive(a, b, c);
    hide Ids, VenueMoves;
    forall id | id in a && id in c && id !in Ids(x)
      ensures VenueMoves(a[id], c[id]) && (rule.quiet ==> c[id] == a[id])
    {
      assert id in b && id !in Ids(y);
      VenueMovesOn(a[id], b[id], c[id]);
    }
    forall id | id in c && id !in a ensures c[id].symbol == rule.symbol && c[id].side == rule.side {
      assert id in b ==> Moves(b[id], c[id]);
    }
    forall id | id in c && c[id].live && (id in Ids(x) || id !in a) ensures id in Ids(z) || id in d + e {
      assert id in b ==> Moves(b[id], c[id]);
    }
  }

  lemma VenueMovesOn(a: Order, b: Order, c: Order)
    requires VenueMoves(a, b) && VenueMoves(b, c)
    ensures VenueMoves(a, c)
  {
  }

  /** What every step of one side keeps: the mirror and the placement rule. */
  ghost predicate Sound(before: Orders, after: Orders, rule: Rule,
                        levels: seq<Quote>, next: seq<Quote>, lost: set<OrderId>) {
    Synced(before, after, rule, levels, next, lost) && NewFit(before, after, rule)
  }

  lemma SoundChain(a: Orders, b: Orders, c: Orders, rule: Rule, x: seq<Quote>, y: seq<Quote>, z: seq<Quote>,
                   d: set<OrderId>, e: set<OrderId>)
    requires Sound(a, b, rule, x, y, d) && Sound(b, c, rule, y, z, e)
    ensures Sound(a, c, rule, x, z, d + e)
  {
    SyncedChain(a, b, c, rule, x, y, z, d, e);
    assert forall id :: id in b ==> Moves(b[id], c[id]);
    hide PriceFits, Ids;
  }

  /** Two steps that lose nothing. */
  lemma SoundJoin(a: Orders, b: Orders, c: Orders, rule: Rule, x: seq<Quote>, y: seq<Quote>, z: seq<Quote>)
    requires Sound(a, b, rule, x, y, {}) && Sound(b, c, rule, y, z, {})
    ensures Sound(a, c, rule, x, z, {})
  {
    SoundChain(a, b, c, rule, x, y, z, {}, {});
    var none: set<OrderId> := {};
    assert none + none == none;
    hide Sound;
  }

  lemma SoundEvolves(a: Orders, b: Orders, rule: Rule, levels: seq<Quote>, next: seq<Quote>, lost: set<OrderId>)
    requires Sound(a, b, rule, levels, next, lost)
    ensures Evolves(a, b) && a.Keys <= b.Keys
    ensures Belong(levels, a, rule.symbol, rule.side) ==> Belong(next, b, rule.symbol, rule.side)
  {
    assert forall id :: id in a ==> Moves(a[id], b[id]);
    hide Ids, PriceFits;
  }

  /** Orders moved only by the venue, or by a cancel of an entry. */
  lemma SoundCancels(a: Orders, b: Orders, rule: Rule, levels: seq<Quote>)
    requires Evolves(a, b) && a.Keys == b.Keys && OthersKept(a, b, Ids(levels), rule.quiet)
    ensures Sound(a, b, rule, levels, levels, {})
  {
    hide PriceFits, Ids;
  }

  lemma SoundSame(o: Orders, rule: Rule, levels: seq<Quote>)
    ensures Sound(o, o, rule, levels, levels, {})
  {
    hide PriceFits, Ids;
  }

  /** One cancel among the entries. */
  lemma SoundCancel(a: Orders, b: Orders, rule: Rule, levels: seq<Quote>, w: Quote, quiet: bool)
    requires Evolves(a, b) && a.Keys == b.Keys && OthersKept(a, b, {w.id}, quiet) && w in levels
    requires rule.quiet ==> quiet
    ensures Sound(a, b, rule, levels, levels, {})
  {
    hide VenueMoves, PriceFits;
    InIds(levels, w.id);
    SoundCancels(a, b, rule, levels);
  }

  /** Forgetting entries, those still live being lost. */
  lemma SoundForget(o: Orders, rule: Rule, levels: seq<Quote>, next: seq<Quote>, lost: set<OrderId>)
    requires Ids(next) <= Ids(levels)
    requires forall id :: id in Ids(levels) && id !in Ids(next) && id !in lost && id in o ==> !o[id].live
    ensures Sound(o, o, rule, levels, next, lost)
  {
    hide PriceFits;
  }

  lemma SoundPrune(o: Orders, rule: Rule, levels: seq<Quote>)
    ensures Sound(o, o, rule, levels, Pruned(levels, o), {})
  {
    PrunedKeeps(levels, o);
    SoundForget(o, rule, levels, Pruned(levels, o), {});
    hide Sound, Ids, Pruned;
  }

  /** Removing an entry whose order has ended. */
  lemma SoundRemove(o: Orders, rule: Rule, levels: seq<Quote>, w: Quote)
    requires w.id in o ==> !o[w.id].live
    ensures Sound(o, o, rule, levels, Without(levels, w), {})
  {
    WithoutKeeps(levels, w);
    var next := Without(levels, w);
    forall id | id in Ids(next) ensures id in Ids(levels) {
      InIds(next, id);
      InIds(levels, id);
    }
    forall id | id in Ids(levels) && id !in Ids(next) && id in o ensures !o[id].live {
      InIds(next, id);
      InIds(levels, id);
    }
    SoundForget(o, rule, levels, next, {});
  }

  lemma SoundSort(o: Orders, rule: Rule, levels: seq<Quote>)
    ensures Sound(o, o, rule, levels, Sorted(levels), {})
  {
    SortMembers(levels);
    hide Sorted, Ids;
    SoundForget(o, rule, levels, Sorted(levels), {});
  }

  /** Rewriting the size of the only entry. */
  lemma SoundRename(o: Orders, rule: Rule, levels: seq<Quote>, w: Quote)
    requires |levels| == 1 && levels[0].id == w.id
    ensures Sound(o, o, rule, levels, [w], {}) && Ids([w]) == Ids(levels)
  {
    assert levels == [] + [levels[0]] && [w] == [] + [w];
    IdsSnoc([], levels[0]);
    IdsSnoc([], w);
    SoundForget(o, rule, levels, [w], {});
  }

  lemma FirstOnly(o: Orders, rule: Rule, levels: seq<Quote>)
    requires |levels| > 1
    requires forall j :: 1 <= j < |levels| && levels[j].id in o ==> !o[levels[j].id].live
    ensures Sound(o, o, rule, levels, levels[..1], {})
  {
    assert levels[..1][0] == levels[0];
    SoundForget(o, rule, levels, levels[..1], {});
    hide Sound;
  }

  /** The list with a new entry, if there is one. */
  function Plus(levels: seq<Quote>, placed: Option<Quote>): seq<Quote> {
    if placed.Some? then levels + [placed.value] else levels
  }

  // --- Withdrawn entries -----------------------------------------------------------------------

  /** Pruned entries are live, so they were not withdrawn. */
  lemma PrunedNotWithdrawn(levels: seq<Quote>, o: Orders)
    requires forall id :: id in o && o[id].withdrawn ==> !o[id].live
    ensures NoneWithdrawn(Pruned(levels, o), o)
  {
    PrunedKeeps(levels, o);
    hide Pruned, Ids;
  }

  /** Entries that were not among those we may have cancelled are not withdrawn. */
  lemma StayNotWithdrawn(a: Orders, b: Orders, levels: seq<Quote>, ids: set<OrderId>, quiet: bool)
    requires NoneWithdrawn(levels, a) && Ids(levels) <= a.Keys
    requires OthersKept(a, b, ids, quiet) && Ids(levels) * ids == {}
    ensures NoneWithdrawn(levels, b)
  {
    hide Ids;
    forall id | id in Ids(levels) && id in b ensures !b[id].withdrawn {
      assert id !in Ids(levels) * ids;
      assert VenueMoves(a[id], b[id]);
    }
  }

  lemma SameIdsNotWithdrawn(x: seq<Quote>, y: seq<Quote>, o: Orders)
    requires Ids(x) == Ids(y) && NoneWithdrawn(x, o)
    ensures NoneWithdrawn(y, o)
  {
    hide Ids;
  }

  lemma EntriesKnown(levels: seq<Quote>, o: Orders, rule: Rule)
    requires Belong(levels, o, rule.symbol, rule.side)
    ensures Ids(levels) <= o.Keys
  {
    hide Ids;
  }

  lemma EntryBelongs(levels: seq<Quote>, i: nat, o: Orders, rule: Rule)
    requires Belong(levels, o, rule.symbol, rule.side) && i < |levels|
    ensures levels[i].id in o && o[levels[i].id].side == rule.side
  {
  }

  lemma FirstClear(levels: seq<Quote>, o: Orders, rule: Rule)
    requires NoneWithdrawn(levels, o) && Belong(levels, o, rule.symbol, rule.side)
    ensures levels != [] ==> levels[0].id in o && !o[levels[0].id].withdrawn
  {
  }

  /** Cancelling another entry does not cancel the first. */
  lemma FirstStays(a: Orders, b: Orders, levels: seq<Quote>, i: nat, quiet: bool)
    requires 1 <= i < |levels| && Distinct(levels) && levels[0].id in a
    requires OthersKept(a, b, {levels[i].id}, quiet) && a.Keys == b.Keys
    ensures b[levels[0].id].withdrawn == a[levels[0].id].withdrawn
  {
    assert Apart(levels[0], levels[i]);
  }

  lemma OneNotWithdrawn(levels: seq<Quote>, o: Orders)
    requires |levels| <= 1 && (levels != [] ==> levels[0].id in o && !o[levels[0].id].withdrawn)
    ensures NoneWithdrawn(levels, o)
  {
  }

  lemma PrefixDistinct(levels: seq<Quote>, n: nat)
    requires Distinct(levels) && n <= |levels|
    ensures Distinct(levels[..n])
  {
  }

  lemma PrunedTwice(levels: seq<Quote>, o: Orders)
    ensures Pruned(Pruned(levels, o), o) == Pruned(levels, o)
  {
    PrunedMembers(levels, o);
    PrunedSame(Pruned(levels, o), o);
  }

  /** Sending one order, tracked if it may be live. */
  lemma SoundPlace(a: Orders, b: Orders, rule: Rule, levels: seq<Quote>, placed: Option<Quote>, quiet: bool)
    requires Evolves(a, b) && NewOn(a, b, rule.symbol, rule.side) && NewFit(a, b, rule)
    requires OthersKept(a, b, {}, quiet) && (rule.quiet ==> quiet)
    requires forall id :: id in b && id !in a && b[id].live ==> placed.Some? && id == placed.value.id
    requires placed.Some? ==> placed.value.id in b && placed.value.id !in a && !b[placed.value.id].withdrawn
    requires Distinct(levels) && Belong(levels, a, rule.symbol, rule.side)
    requires placed.Some? ==> forall w :: w in levels ==> w.level != placed.value.level
    ensures Sound(a, b, rule, levels, Plus(levels, placed), {})
    ensures Distinct(Plus(levels, placed))
    ensures NoneWithdrawn(levels, a) ==> NoneWithdrawn(Plus(levels, placed), b)
    ensures placed.Some? ==> Ids(Plus(levels, placed)) != Ids(levels)
  {
    hide PriceFits, Ids, Distinct;
    if NoneWithdrawn(levels, a) {
      StayNotWithdrawn(a, b, levels, {}, quiet);
    }
    if placed.Some? {
      var w := placed.value;
      IdsSnoc(levels, w);
      forall x | x in levels ensures Apart(x, w) {
        InIds(levels, x.id);
      }
      DistinctSnoc(levels, w);
    }
  }

  // --- What a refresh reports --------------------------------------------------------------------

  /** A step that reports a change changed which orders are quoted; one that reports
      none added no order. */
  ghost predicate Reported(changed: bool, levels: seq<Quote>, next: seq<Quote>) {
    if changed then Ids(next) != Ids(levels) else Ids(next) <= Ids(levels)
  }

  /** No order was sent, so no entry is new. */
  lemma ReportNone(a: Orders, b: Orders, rule: Rule, levels: seq<Quote>, next: seq<Quote>, lost: set<OrderId>)
    requires Sound(a, b, rule, levels, next, lost) && a.Keys == b.Keys
    ensures Reported(false, levels, next)
  {
    hide Ids, PriceFits;
  }

  lemma ReportPlaced(levels: seq<Quote>, next: seq<Quote>, o: Orders, w: Quote)
    requires Ids(levels) <= o.Keys && w in next && w.id !in o
    ensures Reported(true, levels, next)
  {
    InIds(next, w.id);
    hide Ids;
  }

  /** One entry was taken off the end and lost, after those behind it had gone. */
  ghost predicate Popped(levels: seq<Quote>, next: seq<Quote>, lost: set<OrderId>) {
    1 <= |next| < |levels| && next == levels[..|next|] && lost == {levels[|next|].id}
  }

  lemma PoppedApart(levels: seq<Quote>, next: seq<Quote>, lost: set<OrderId>)
    requires Distinct(levels) && Popped(levels, next, lost)
    ensures lost <= Ids(levels) && lost !! Ids(next)
  {
  }
}
