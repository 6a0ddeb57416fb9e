/** The quote executor: per-symbol sessions that mirror the live market-making
    orders through six execution modes, rejects, fills and cancels. */
module QuoteExecutor {
  import opened Arithmetic
  import opened Collections
  import opened Enums
  import opened MmExecution
  import opened QuoteBook

  // --- Sessions -------------------------------------------------------------------------

  datatype Session = Session(bids: seq<Quote>, asks: seq<Quote>)

  function LevelsOf(s: Session, side: Side): seq<Quote> { if side.Buy? then s.bids else s.asks }

  function WithLevels(s: Session, side: Side, levels: seq<Quote>): Session {
    if side.Buy? then s.(bids := levels) else s.(asks := levels)
  }

  function SessionOf(sessions: map<Symbol, Session>, symbol: Symbol): Session {
    if symbol in sessions then sessions[symbol] else Session([], [])
  }

  function PrunedSession(s: Session, o: Orders): Session { Session(Pruned(s.bids, o), Pruned(s.asks, o)) }

  ghost function SessionIds(s: Session): set<OrderId> { Ids(s.bids) + Ids(s.asks) }

  predicate Fits(s: Session, maxOrders: int) { |s.bids| * 2 <= maxOrders && |s.asks| * 2 <= maxOrders }

  /** Level indices and orders are distinct on a side, and every entry stands for an
      order of that side. */
  ghost predicate TidySide(levels: seq<Quote>, o: Orders, symbol: Symbol, side: Side) {
    Distinct(levels) && Belong(levels, o, symbol, side)
  }

  ghost predicate Tidy(sessions: map<Symbol, Session>, o: Orders) {
    forall s :: s in sessions ==> TidySide(sessions[s].bids, o, s, Buy) && TidySide(sessions[s].asks, o, s, Sell)
  }

  ghost predicate Tracked(sessions: map<Symbol, Session>, o: Order, id: OrderId) {
    o.symbol in sessions && id in Ids(LevelsOf(sessions[o.symbol], o.side))
  }

  /** The live orders that are in no session. */
  ghost function OrphansOf(sessions: map<Symbol, Session>, o: Orders): set<OrderId> {
    set id | id in o && o[id].live && !Tracked(sessions, o[id], id)
  }

  ghost function LiveAmong(ids: set<OrderId>, o: Orders): set<OrderId> { set id | id in ids && id in o && o[id].live }

  /** Syncing one side of one symbol: the orphans are those there were and those that
      were lost, as far as they are still live. */
  lemma MirrorStep(sessions: map<Symbol, Session>, before: Orders, after: Orders, rule: Rule, next: seq<Quote>,
                   lost: set<OrderId>)
    requires Tidy(sessions, before) && rule.symbol in sessions
    requires Sound(before, after, rule, LevelsOf(sessions[rule.symbol], rule.side), next, lost)
    requires lost <= Ids(LevelsOf(sessions[rule.symbol], rule.side)) && lost !! Ids(next)
    ensures var now := sessions[rule.symbol := WithLevels(sessions[rule.symbol], rule.side, next)];
      OrphansOf(now, after) == LiveAmong(OrphansOf(sessions, before) + lost, after)
  {
    hide PriceFits, Ids, OthersKept, Distinct;
    var levels := LevelsOf(sessions[rule.symbol], rule.side);
    var now := sessions[rule.symbol := WithLevels(sessions[rule.symbol], rule.side, next)];
    forall id ensures id in OrphansOf(now, after) <==> id in LiveAmong(OrphansOf(sessions, before) + lost, after) {
      if id in before {
        assert Moves(before[id], after[id]);
      }
    }
  }

  /** Orders that only moved: the orphans are those there were, as far as still live. */
  lemma MirrorMoves(sessions: map<Symbol, Session>, before: Orders, after: Orders)
    requires Evolves(before, after) && before.Keys == after.Keys
    ensures OrphansOf(sessions, after) == LiveAmong(OrphansOf(sessions, before), after)
  {
    assert forall id :: id in before ==> Moves(before[id], after[id]);
    hide Ids;
  }

  /** Forgetting sessions: the orders they held are orphans if live. */
  lemma MirrorForget(sessions: map<Symbol, Session>, o: Orders, symbol: Symbol)
    requires Tidy(sessions, o)
    ensures OrphansOf(sessions - {symbol}, o)
         == LiveAmong(OrphansOf(sessions, o) + SessionIds(SessionOf(sessions, symbol)), o)
    ensures Tidy(sessions - {symbol}, o)
  {
    hide Distinct;
    IdsOfNone();
    hide Ids;
    if symbol !in sessions {
      assert sessions - {symbol} == sessions;
      assert SessionIds(SessionOf(sessions, symbol)) == {};
    }
    forall id ensures id in OrphansOf(sessions - {symbol}, o)
                 <==> id in LiveAmong(OrphansOf(sessions, o) + SessionIds(SessionOf(sessions, symbol)), o) {
    }
  }

  lemma IdsOfNone()
    ensures Ids([]) == {}
  {
  }

  /** Losing in two steps is losing both at once. */
  lemma LiveTwice(ids: set<OrderId>, more: set<OrderId>, b: Orders, c: Orders)
    requires Evolves(b, c) && ids <= b.Keys
    ensures LiveAmong(LiveAmong(ids, b) + more, c) == LiveAmong(ids + more, c)
  {
    assert forall id :: id in b ==> Moves(b[id], c[id]);
  }

  /** Every entry of every session is live. */
  ghost predicate SessionsLive(sessions: map<Symbol, Session>, o: Orders) {
    forall s :: s in sessions ==> SessionLive(sessions[s], o)
  }

  ghost predicate SessionLive(s: Session, o: Orders) { AllLive(s.bids, o) && AllLive(s.asks, o) }

  /** Orders outside `ids` stay live at a quiet venue. */
  lemma LiveElsewhere(levels: seq<Quote>, a: Orders, b: Orders, ids: set<OrderId>)
    requires AllLive(levels, a) && Ids(levels) !! ids
    requires Evolves(a, b) && OthersKept(a, b, ids, true)
    ensures AllLive(levels, b)
  {
    hide Ids, VenueMoves;
  }

  /** A refresh of one symbol leaves the other sessions live at a quiet venue. */
  lemma OthersStayLive(given: map<Symbol, Session>, now: map<Symbol, Session>, a: Orders, b: Orders, symbol: Symbol)
    requires Tidy(given, a) && SessionsLive(given, a) && OnlyMoved(a, b, {symbol})
    requires OnlyWithdrawn(b) && forall id :: id in a && a[id].withdrawn ==> !a[id].live
    requires symbol in now && now == given[symbol := now[symbol]] && SessionLive(now[symbol], b)
    ensures SessionsLive(now, b)
  {
    hide Ids, Distinct;
    forall s | s in given && s != symbol ensures SessionLive(given[s], b) {
      forall id | id in Ids(given[s].bids) || id in Ids(given[s].asks) ensures id in b && b[id].live {
        assert a[id].symbol == s && a[id].live && VenueMoves(a[id], b[id]);
      }
    }
  }

  /** Cancelling the orders of one session leaves the other sessions live. */
  lemma ForgettingKeepsLive(given: map<Symbol, Session>, a: Orders, b: Orders, symbol: Symbol)
    requires Tidy(given, a) && SessionsLive(given, a) && Evolves(a, b)
    requires OthersKept(a, b, SessionIds(SessionOf(given, symbol)), true)
    ensures SessionsLive(given - {symbol}, b)
  {
    hide Distinct;
    IdsOfNone();
    hide Ids;
    var gone := SessionOf(given, symbol);
    forall s | s in given && s != symbol ensures SessionLive(given[s], b) {
      assert Ids(given[s].bids) !! SessionIds(gone) && Ids(given[s].asks) !! SessionIds(gone);
      LiveElsewhere(given[s].bids, a, b, SessionIds(gone));
      LiveElsewhere(given[s].asks, a, b, SessionIds(gone));
    }
  }

  /** Pruning drops nothing from sessions that are live. */
  lemma PruneLive(sessions: map<Symbol, Session>, o: Orders, symbol: Symbol)
    requires SessionsLive(sessions, o) && symbol in sessions
    ensures SessionsLive(sessions[symbol := PrunedSession(sessions[symbol], o)], o)
  {
    PrunedKeeps(sessions[symbol].bids, o);
    PrunedKeeps(sessions[symbol].asks, o);
    hide Ids, Pruned;
  }

  lemma TidyMoves(sessions: map<Symbol, Session>, before: Orders, after: Orders)
    requires Tidy(sessions, before) && Evolves(before, after)
    ensures Tidy(sessions, after)
  {
    assert forall id :: id in before ==> Moves(before[id], after[id]);
    hide Ids, Distinct;
  }

  lemma StoreTidy(sessions: map<Symbol, Session>, o: Orders, symbol: Symbol, side: Side, levels: seq<Quote>)
    requires Tidy(sessions, o) && symbol in sessions && TidySide(levels, o, symbol, side)
    ensures Tidy(sessions[symbol := WithLevels(sessions[symbol], side, levels)], o)
  {
    hide TidySide;
  }

  lemma OpenSession(sessions: map<Symbol, Session>, o: Orders, symbol: Symbol)
    requires symbol !in sessions && Tidy(sessions, o)
    ensures Tidy(sessions[symbol := Session([], [])], o)
    ensures OrphansOf(sessions[symbol := Session([], [])], o) == OrphansOf(sessions, o)
  {
  }

  lemma PruneTidy(sessions: map<Symbol, Session>, o: Orders, symbol: Symbol)
    requires Tidy(sessions, o) && symbol in sessions
    ensures var now := sessions[symbol := PrunedSession(sessions[symbol], o)];
      Tidy(now, o) && OrphansOf(now, o) == OrphansOf(sessions, o)
  {
    PrunedKeeps(sessions[symbol].bids, o);
    PrunedKeeps(sessions[symbol].asks, o);
    hide Ids, Pruned, Distinct;
  }

  // --- The executor ---------------------------------------------------------------------------

  datatype Settings = Settings(
    enabled: bool, maxRefreshPerTick: int, placeBps: real, cancelBps: real, minRest: real, refreshBps: real,
    climbTicks: int, ladderLevels: int, ladderSpacing: int, ladderWeights: seq<real>, maxOrders: int,
    bidMode: Mode, askMode: Mode)

  datatype Intent = Intent(
    symbol: Symbol, bidPrice: Option<real>, askPrice: Option<real>, bidQty: real, askQty: real,
    reduceBid: bool, reduceAsk: bool, takeBid: bool, takeAsk: bool, bidMode: Mode, askMode: Mode,
    takeBidPrice: Option<real>, takeAskPrice: Option<real>, mid: real, spreadBps: Option<real>, touch: Touch)

  datatype Outcome = Done(changed: bool) | RejectRaised | CancelRaised

  /** The rejects _handle_reject swallows; every other exception is raised again. */
  predicate Tolerated(e: Error) {
    || (e.code.Some? && e.code.value in {-4164, -2022, -4116, -1003})
    || (e.status.Some? && e.status.value in {0, 418})
  }

  /** resolve_execution_mode */
  function ResolveMode(intentMode: Mode, settings: Settings, side: Side, take: bool): Mode {
    if take then Take
    else if !intentMode.Make? then intentMode
    else if side.Buy? then settings.bidMode
    else settings.askMode
  }

  function ModeFor(intent: Intent, settings: Settings, side: Side): Mode {
    if side.Buy? then ResolveMode(intent.bidMode, settings, Buy, intent.takeBid)
    else ResolveMode(intent.askMode, settings, Sell, intent.takeAsk)
  }

  /** What one side is synced towards. */
  datatype Target = Target(rule: Rule, price: real, qty: real, reduceOnly: bool, tick: real)

  /** _size_quote_qty, whatever the venue's sizing says. */
  type Sizing = (Symbol, real, real, bool) -> Option<real>

  lemma NoneDistinct()
    ensures Distinct([]) && Ids([]) == {}
  {
  }

  /** An order for this price and size was sent. */
  ghost predicate SentOrder(before: Orders, after: Orders, rule: Rule, price: real, qty: real, postOnly: bool) {
    exists id :: id in after && id !in before && after[id].symbol == rule.symbol && after[id].side == rule.side
                 && after[id].price == price && after[id].qty == qty && after[id].postOnly == postOnly
  }

  /** A price in the place zone and a size the venue takes. */
  predicate Sendable(t: Target, sizing: Sizing, price: real, qty: real) {
    && WithinPlaceZone(t.rule.side, price, t.rule.touch, t.rule.placeBps) && qty > 0.0 && price > 0.0
    && sizing(t.rule.symbol, qty, price, t.reduceOnly).Some?
  }

  /** A wanted quote was sent, unless its price is out of the place zone or it cannot
      be sized. */
  ghost predicate Handled(before: Orders, after: Orders, t: Target, sizing: Sizing, price: real, qty: real,
                          postOnly: bool) {
    (postOnly ==> WithinPlaceZone(t.rule.side, price, t.rule.touch, t.rule.placeBps)) && qty > 0.0 && price > 0.0
    && sizing(t.rule.symbol, qty, price, t.reduceOnly).Some?
    ==> SentOrder(before, after, t.rule, price, sizing(t.rule.symbol, qty, price, t.reduceOnly).value, postOnly)
  }

  /** The price a TAKE order goes out at. */
  function TakePrice(intent: Intent, side: Side, price: real): real {
    var asked := if side.Buy? then intent.takeBidPrice else intent.takeAskPrice;
    if asked.Some? && asked.value != 0.0 then asked.value else price
  }

  /** A side's take flag decides first, then the mode its intent asks for, unless that is
      the default MAKE, then the side's own setting. */
  lemma WhichMode(intent: Intent, settings: Settings, mode: Mode)
    ensures ModeFor(intent.(takeBid := true), settings, Buy).Take?
    ensures ModeFor(intent.(takeAsk := true), settings, Sell).Take?
    ensures !mode.Make? ==>
      && ModeFor(intent.(takeBid := false, bidMode := mode), settings, Buy) == mode
      && ModeFor(intent.(takeAsk := false, askMode := mode), settings, Sell) == mode
    ensures ModeFor(intent.(takeBid := false, bidMode := Make), settings.(bidMode := mode), Buy) == mode
    ensures ModeFor(intent.(takeAsk := false, askMode := Make), settings.(askMode := mode), Sell) == mode
  {
  }

  /** A TAKE order goes out at the price asked for on its side, or lacking one (or for
      zero) at the clamped target. */
  lemma WhichTakePrice(intent: Intent, asked: real, price: real)
    ensures var expected := if asked != 0.0 then asked else price;
      && TakePrice(intent.(takeBidPrice := Some(asked)), Buy, price) == expected
      && TakePrice(intent.(takeAskPrice := Some(asked)), Sell, price) == expected
    ensures TakePrice(intent.(takeBidPrice := None), Buy, price) == price
    ensures TakePrice(intent.(takeAskPrice := None), Sell, price) == price
  {
  }

  lemma SamePlacement(before: Orders, after: Orders, t: Target, u: Target, sizing: Sizing, price: real, qty: real,
                      postOnly: bool)
    requires t.rule == u.rule && t.reduceOnly == u.reduceOnly
    ensures Handled(before, after, u, sizing, price, qty, postOnly)
       <==> Handled(before, after, t, sizing, price, qty, postOnly)
  {
  }

  lemma OutOfZone(before: Orders, after: Orders, t: Target, sizing: Sizing, price: real, qty: real)
    requires !WithinPlaceZone(t.rule.side, price, t.rule.touch, t.rule.placeBps)
    ensures Handled(before, after, t, sizing, price, qty, true) && !Sendable(t, sizing, price, qty)
  {
  }

  lemma HandledSince(a: Orders, b: Orders, c: Orders, t: Target, sizing: Sizing, price: real, qty: real, postOnly: bool)
    requires Handled(b, c, t, sizing, price, qty, postOnly) && a.Keys <= b.Keys
    ensures Handled(a, c, t, sizing, price, qty, postOnly)
  {
    assert forall id :: id in c && id !in b ==> id !in a;
  }

  lemma HandledStays(a: Orders, b: Orders, c: Orders, t: Target, sizing: Sizing, price: real, qty: real, postOnly: bool)
    requires Handled(a, b, t, sizing, price, qty, postOnly) && Evolves(b, c)
    ensures Handled(a, c, t, sizing, price, qty, postOnly)
  {
    assert forall id :: id in b ==> id in c && Moves(b[id], c[id]);
    hide WithinPlaceZone;
  }

  lemma EndedStays(a: Orders, b: Orders, levels: seq<Quote>)
    requires Evolves(a, b) && forall id :: id in Ids(levels) && id in a ==> !a[id].live
    ensures forall id :: id in Ids(levels) && id in a && id in b ==> !b[id].live
  {
    assert forall id :: id in a ==> Moves(a[id], b[id]);
    hide Ids;
  }

  /** The first entry is still there and alone, perhaps with its size brought up to date. */
  ghost predicate KeepsFirst(kept: seq<Quote>, next: seq<Quote>) {
    kept != [] && |next| == 1 && next[0] == kept[0].(qty := next[0].qty)
  }

  lemma LevelsDiffer(targets: seq<LevelTarget>, i: nat, side: Side, target: real, n: nat)
    requires i < |targets| && Rungs(side, target, targets, n)
    ensures forall k :: 0 <= k < i ==> targets[k].level != targets[i].level
  {
  }

  /** A climb that does move a quote that need not be cancelled ends no better than
      the target, so it does not cross. */
  lemma CalmClimbFits(t: Target, w: Quote, cancelBps: real, minRest: real, now: real, ticks: int)
    requires !Crosses(t.rule.side, t.price, t.rule.touch) && t.tick > 0.0
    requires CancelReason(t.rule.side, w.price, t.price, t.rule.touch, cancelBps, w.posted, minRest, now).None?
    ensures var px := ClimbNextPrice(t.rule.side, w.price, t.price, t.tick, ticks);
      Abs(px - w.price) >= t.tick * 0.25 ==> !Crosses(t.rule.side, px, t.rule.touch)
  {
    var px := ClimbNextPrice(t.rule.side, w.price, t.price, t.tick, ticks);
    ClimbIsNoBetter(t.rule.side, w.price, t.price, t.tick, ticks);
    hide ClimbNextPrice, WithinPlaceZone;
    if px != w.price {
      AwayNeverCrosses(t.rule.side, px, t.price, t.rule.touch);
    }
  }

  lemma StaysEnded(a: Orders, b: Orders, levels: seq<Quote>)
    requires Evolves(a, b) && a.Keys == b.Keys
    ensures forall j :: 0 <= j < |levels| && levels[j].id in b && !a[levels[j].id].live ==> !b[levels[j].id].live
  {
    assert forall id :: id in a ==> Moves(a[id], b[id]);
  }

  lemma AllEnded(o: Orders, levels: seq<Quote>)
    requires forall j :: 0 <= j < |levels| && levels[j].id in o ==> !o[levels[j].id].live
    ensures Ids([]) <= Ids(levels)
    ensures forall id :: id in Ids(levels) && id in o ==> !o[id].live
  {
  }

  /** The prices a climbing rung may return to although they cross. */
  function StalePrices(levels: seq<Quote>, side: Side, step: real): set<real> {
    (set i | 0 <= i < |levels| :: SteppedBack(side, levels[i].price, step))
    + (set i | 0 <= i < |levels| :: levels[i].price)
  }

  lemma StaleOf(levels: seq<Quote>, w: Quote, side: Side, step: real)
    requires w in levels
    ensures {SteppedBack(side, w.price, step), w.price} <= StalePrices(levels, side, step)
  {
    var i :| 0 <= i < |levels| && levels[i] == w;
  }

  /** What the venue has still open of a quote. */
  function Remaining(o: Orders, w: Quote): real {
    if w.id in o then Max(0.0, o[w.id].qty - o[w.id].filled) else w.qty
  }

  /** What is open of a quote is never negative and never grows, and with what was filled
      it makes up the order as long as that is not overfilled. */
  lemma RemainingShrinks(a: Orders, b: Orders, w: Quote)
    requires Evolves(a, b) && w.id in a
    ensures 0.0 <= Remaining(b, w) <= Remaining(a, w)
    ensures b[w.id].filled <= b[w.id].qty ==> Remaining(b, w) + b[w.id].filled == a[w.id].qty
  {
    assert Moves(a[w.id], b[w.id]);
  }

  /** The quote is neither better than its target nor too deep, and is young or close. */
  predicate Rests(t: Target, w: Quote, target: real, settings: Settings, now: real) {
    CancelReason(t.rule.side, w.price, target, t.rule.touch, settings.cancelBps, w.posted, settings.minRest, now).None?
  }

  /** MAKE leaves a quote that rests alone; CHASE only one that is also close enough in
      price and size. */
  predicate KeepsSingle(t: Target, w: Quote, qty: real, chase: bool, settings: Settings, now: real) {
    Rests(t, w, t.price, settings, now)
    && (chase ==> !ChaseShouldReplace(w.price, qty, t.price, t.qty, settings.refreshBps))
  }

  function ClimbPrice(t: Target, w: Quote, target: real, settings: Settings): real {
    ClimbNextPrice(t.rule.side, w.price, target, t.tick, MaxInt(1, settings.climbTicks))
  }

  /** CLIMB leaves a quote alone that rests and is a quarter tick or less from its next price. */
  predicate KeepsClimbing(t: Target, w: Quote, settings: Settings, now: real) {
    Rests(t, w, t.price, settings, now) && Abs(ClimbPrice(t, w, t.price, settings) - w.price) < t.tick * 0.25
  }

  /** A rung leaves its quote alone as CHASE does, or in CLIMB_MULTI as CLIMB does. */
  predicate KeepsRung(t: Target, w: Quote, lt: LevelTarget, climb: bool, settings: Settings, now: real) {
    Rests(t, w, lt.price, settings, now) &&
    if climb then
      var px := ClimbPrice(t, w, lt.price, settings);
      Abs((if px == 0.0 then lt.price else px) - w.price) < t.tick * 0.25
    else !ChaseShouldReplace(w.price, w.qty, lt.price, lt.qty, settings.refreshBps)
  }

  /** The order of the quote has ended. */
  predicate Ended(w: Quote, o: Orders) { w.id in o ==> !o[w.id].live }

  /** No quote of the list that lies outside the keep zone is still working. */
  ghost predicate KeepZone(levels: seq<Quote>, o: Orders, side: Side, touch: Touch, cancelBps: real) {
    forall w :: w in levels && Deep(side, w.price, touch, cancelBps) ==> Ended(w, o)
  }

  lemma KeepZoneStays(levels: seq<Quote>, a: Orders, b: Orders, side: Side, touch: Touch, cancelBps: real)
    requires KeepZone(levels, a, side, touch, cancelBps) && Evolves(a, b) && Ids(levels) <= a.Keys
    ensures KeepZone(levels, b, side, touch, cancelBps)
  {
    forall w | w in levels && Deep(side, w.price, touch, cancelBps) ensures Ended(w, b) {
      InIds(levels, w.id);
      assert Moves(a[w.id], b[w.id]);
    }
  }

  /** A former entry that is still there has its old price and is not too deep. */
  ghost predicate Shallow(levels: seq<Quote>, next: seq<Quote>, start: Orders, side: Side, touch: Touch,
                          cancelBps: real) {
    forall x :: x in next && x.id in start ==>
      !Deep(side, x.price, touch, cancelBps) && exists w :: w in levels && w.id == x.id && w.price == x.price
  }

  lemma ShallowKeeps(levels: seq<Quote>, next: seq<Quote>, start: Orders, end: Orders, rule: Rule, cancelBps: real)
    requires Distinct(levels) && Belong(levels, start, rule.symbol, rule.side)
    requires Sound(start, end, rule, levels, next, {})
    requires Shallow(levels, next, start, rule.side, rule.touch, cancelBps)
    ensures KeepZone(levels, end, rule.side, rule.touch, cancelBps)
  {
    hide PriceFits, OthersKept, Distinct, Deep;
    forall w | w in levels && Deep(rule.side, w.price, rule.touch, cancelBps) ensures Ended(w, end) {
      InIds(levels, w.id);
      if w.id in end && end[w.id].live {
        InIds(next, w.id);
        var x :| x in next && x.id == w.id;
        var v :| v in levels && v.id == x.id && v.price == x.price;
        SameEntry(levels, v, w);
        assert false;
      }
    }
  }

  /** Where only new orders are left, the former ones have ended. */
  lemma AllGone(levels: seq<Quote>, next: seq<Quote>, start: Orders, end: Orders, rule: Rule)
    requires Sound(start, end, rule, levels, next, {}) && forall x :: x in next ==> x.id !in start
    ensures forall w :: w in Pruned(levels, start) ==> Ended(w, end)
  {
    PrunedMembers(levels, start);
    hide PriceFits, OthersKept, Pruned;
    forall w | w in levels && w.id in start ensures Ended(w, end) {
      InIds(levels, w.id);
      InIds(next, w.id);
    }
  }

  lemma NewIsShallow(levels: seq<Quote>, next: seq<Quote>, start: Orders, rule: Rule, cancelBps: real)
    requires forall x :: x in next ==> x.id !in start
    ensures Shallow(levels, next, start, rule.side, rule.touch, cancelBps)
  {
  }

  lemma AllEndedKeepZone(levels: seq<Quote>, o: Orders, side: Side, touch: Touch, cancelBps: real)
    requires forall id :: id in Ids(levels) && id in o ==> !o[id].live
    ensures KeepZone(levels, o, side, touch, cancelBps)
  {
    forall w | w in levels ensures Ended(w, o) {
      InIds(levels, w.id);
    }
  }

  /** From rung `i` on, the session still holds exactly the wanted entries it had. */
  ghost predicate Untouched(kept: seq<Quote>, next: seq<Quote>, targets: seq<LevelTarget>, i: nat) {
    i < |targets| ==>
      && (forall w :: w in next && w.level >= targets[i].level ==> w in kept)
      && (forall w :: w in kept && w.level >= targets[i].level && Wanted(w.level, targets) ==> w in next)
  }

  lemma RungStart(kept: seq<Quote>, next: seq<Quote>, targets: seq<LevelTarget>, i: nat)
    requires i < |targets| && Untouched(kept, next, targets, i)
    ensures var working := Find(kept, targets[i].level);
      && (working.Some? ==> working.value in next)
      && (working.None? ==> forall w :: w in next ==> w.level != targets[i].level)
  {
    assert Wanted(targets[i].level, targets);
  }

  lemma RungPriceFits(targets: seq<LevelTarget>, i: nat, rule: Rule, target: real, n: nat)
    requires i < |targets| && Rungs(rule.side, target, targets, n) && !Crosses(rule.side, target, rule.touch)
    ensures !Crosses(rule.side, targets[i].price, rule.touch)
  {
    AwayNeverCrosses(rule.side, targets[i].price, target, rule.touch);
  }

  lemma RungDone(kept: seq<Quote>, was: seq<Quote>, next: seq<Quote>, targets: seq<LevelTarget>, i: nat,
                 side: Side, target: real, n: nat)
    requires i < |targets| && Untouched(kept, was, targets, i) && Rungs(side, target, targets, n)
    requires forall w :: w in was ==> Wanted(w.level, targets)
    requires forall w :: w in next && w.level != targets[i].level ==> w in was
    requires forall w :: w in was && w.level != targets[i].level ==> w in next
    ensures forall w :: w in next ==> Wanted(w.level, targets)
    ensures Untouched(kept, next, targets, i + 1)
  {
    assert Wanted(targets[i].level, targets);
    hide Wanted;
    if i + 1 < |targets| {
      assert targets[i].level < targets[i + 1].level;
    }
  }

  /** A rung that climbs ends no better than its target, or at a stale price: one
      step back from where it was, or where it was. */
  lemma RungClimbFits(t: Target, target: real, w: Quote, ticks: int, px: real)
    requires !Crosses(t.rule.side, target, t.rule.touch) && t.tick > 0.0
    requires {SteppedBack(t.rule.side, w.price, Times(t.tick, ticks as real)), w.price} <= t.rule.stale
    requires var next := ClimbNextPrice(t.rule.side, w.price, target, t.tick, ticks);
      px == if next == 0.0 then target else next
    ensures !Crosses(t.rule.side, px, t.rule.touch) || px in t.rule.stale
  {
    var next := ClimbNextPrice(t.rule.side, w.price, target, t.tick, ticks);
    ClimbIsTargetOrStep(t.rule.side, w.price, target, t.tick, ticks);
    hide ClimbNextPrice;
    if px != target && NoBetter(t.rule.side, next, target) {
      AwayNeverCrosses(t.rule.side, next, target, t.rule.touch);
    }
  }

  lemma ClampedFits(bid: Option<real>, ask: Option<real>, touch: Touch, tick: real)
    requires tick > 0.0
    ensures var (b, a) := Clamp(bid, ask, touch, tick);
      (b.Some? ==> !Crosses(Buy, b.value, touch)) && (a.Some? ==> !Crosses(Sell, a.value, touch))
  {
    ClampNeverCrosses(bid, ask, touch, tick);
  }

  lemma NothingPruned(o: Orders)
    ensures Pruned([], o) == []
  {
  }

  lemma NotBefore(levels: seq<Quote>, i: nat)
    requires Distinct(levels) && i < |levels|
    ensures levels[i] !in levels[..i]
  {
    forall j | 0 <= j < i ensures levels[j] != levels[i] {
      assert Apart(levels[j], levels[i]);
    }
  }

  /** One of the first `i` rungs holds an order that did not exist at the start. */
  ghost predicate NewRung(levels: seq<Quote>, targets: seq<LevelTarget>, i: nat, start: Orders)
    requires i <= |targets|
  {
    exists w :: w in levels && w.id !in start && Wanted(w.level, targets[..i])
  }

  /** Later rungs leave the order of an earlier one alone. */
  lemma NewRungStays(was: seq<Quote>, next: seq<Quote>, targets: seq<LevelTarget>, i: nat, start: Orders, placed: bool)
    requires i < |targets| && forall k :: 0 <= k < i ==> targets[k].level != targets[i].level
    requires forall w :: w in was && w.level != targets[i].level ==> w in next
    requires placed ==> exists w :: w in next && w.level == targets[i].level && w.id !in start
    ensures placed || NewRung(was, targets, i, start) ==> NewRung(next, targets, i + 1, start)
  {
    var upTo := targets[..i + 1];
    if placed {
      var w :| w in next && w.level == targets[i].level && w.id !in start;
      assert upTo[i].level == w.level;
    } else if NewRung(was, targets, i, start) {
      var w :| w in was && w.id !in start && Wanted(w.level, targets[..i]);
      var k :| 0 <= k < i && targets[..i][k].level == w.level;
      assert upTo[k].level == w.level && targets[k].level != targets[i].level;
    }
  }

  /** A ladder that dropped an entry or placed a rung quotes other orders than before. */
  lemma LadderChanged(levels: seq<Quote>, kept: seq<Quote>, next: seq<Quote>, targets: seq<LevelTarget>, start: Orders,
                      dropped: bool)
    requires Distinct(levels) && Ids(levels) <= start.Keys && forall w :: w in kept ==> w in levels
    requires forall w :: w in next ==> Wanted(w.level, targets) && (w in kept || w.id !in start)
    requires dropped ==> exists w :: w in kept && !Wanted(w.level, targets)
    requires dropped || NewRung(next, targets, |targets|, start)
    ensures Ids(next) != Ids(levels)
  {
    if dropped {
      var w :| w in kept && !Wanted(w.level, targets);
      InIds(levels, w.id);
      InIds(next, w.id);
      if x :| x in next && x.id == w.id {
        SameEntry(levels, x, w);
      }
    } else {
      var w :| w in next && w.id !in start && Wanted(w.level, targets[..|targets|]);
      InIds(next, w.id);
    }
  }

  lemma SameEntry(levels: seq<Quote>, x: Quote, w: Quote)
    requires Distinct(levels) && x in levels && w in levels && x.id == w.id
    ensures x == w
  {
    var i :| 0 <= i < |levels| && levels[i] == x;
    var j :| 0 <= j < |levels| && levels[j] == w;
    assert forall k, l :: 0 <= k < l < |levels| ==> Apart(levels[k], levels[l]);
  }

  lemma SameLevel(levels: seq<Quote>, x: Quote, w: Quote)
    requires Distinct(levels) && x in levels && w in levels && x.level == w.level
    ensures x == w
  {
    var i :| 0 <= i < |levels| && levels[i] == x;
    var j :| 0 <= j < |levels| && levels[j] == w;
    assert forall k, l :: 0 <= k < l < |levels| ==> Apart(levels[k], levels[l]);
  }

  lemma OneDistinct(w: Quote)
    ensures Distinct([w])
  {
  }

  lemma NoneWithdrawnNone(o: Orders)
    ensures NoneWithdrawn([], o)
  {
  }

  lemma NoneLiveNone(o: Orders)
    ensures AllLive([], o)
  {
  }

  lemma EmptyReported(levels: seq<Quote>)
    ensures Reported(levels != [], levels, [])
  {
    if levels != [] {
      assert levels[0].id in Ids(levels);
    }
  }

  function QtyOf(intent: Intent, side: Side): real { if side.Buy? then intent.bidQty else intent.askQty }

  function TickOf(intent: Intent): (tick: real)
    ensures tick > 0.0
  {
    InferTick(intent.touch, intent.mid, intent.spreadBps)
  }

  /** The clamped price of one side. */
  function PriceOf(intent: Intent, side: Side): Option<real> {
    var prices := Clamp(intent.bidPrice, intent.askPrice, intent.touch, TickOf(intent));
    if side.Buy? then prices.0 else prices.1
  }

  predicate Single(intent: Intent, settings: Settings, side: Side, price: Option<real>, qty: real) {
    && (ModeFor(intent, settings, side).Make? || ModeFor(intent, settings, side).Chase?)
    && price.Some? && qty > 0.0
  }

  /** MAKE or CHASE is to quote a side that has more than one working entry. */
  predicate Surplus(intent: Intent, settings: Settings, side: Side, price: Option<real>, qty: real, kept: seq<Quote>) {
    Single(intent, settings, side, price, qty) && |kept| > 1
  }

  /** A side loses an order only when a cancel of its surplus entries raised, and then
      that one. */
  ghost predicate LosesOnly(intent: Intent, settings: Settings, side: Side, price: Option<real>, qty: real,
                            kept: seq<Quote>, next: seq<Quote>, outcome: Outcome, lost: set<OrderId>) {
    lost != {} ==>
      outcome.CancelRaised? && Surplus(intent, settings, side, price, qty, kept) && Popped(kept, next, lost)
  }

  lemma LostWithin(levels: seq<Quote>, o: Orders, intent: Intent, settings: Settings, side: Side, price: Option<real>,
                   qty: real, next: seq<Quote>, outcome: Outcome, lost: set<OrderId>)
    requires Distinct(levels)
    requires LosesOnly(intent, settings, side, price, qty, Pruned(levels, o), next, outcome, lost)
    ensures lost <= Ids(levels) && lost !! Ids(next)
  {
    hide Pruned, Ids, Distinct, Surplus;
    PrunedKeeps(levels, o);
    if lost != {} {
      PoppedApart(Pruned(levels, o), next, lost);
    }
  }

  /** The entries of a symbol whose orders are live. */
  function Working(sessions: map<Symbol, Session>, o: Orders, symbol: Symbol): Session {
    PrunedSession(SessionOf(sessions, symbol), o)
  }

  predicate HasSurplus(intent: Intent, settings: Settings, side: Side, was: Session) {
    Surplus(intent, settings, side, PriceOf(intent, side), QtyOf(intent, side), LevelsOf(was, side))
  }

  /** One entry of one side with surplus entries. */
  ghost predicate LosesOne(intent: Intent, settings: Settings, was: Session, lost: set<OrderId>) {
    exists side: Side, k ::
      && HasSurplus(intent, settings, side, was) && 1 <= k < |LevelsOf(was, side)|
      && lost == {LevelsOf(was, side)[k].id}
  }

  /** Every entry is a live order of `o` or newer than `o`. */
  ghost predicate FreshEntries(s: Session, o: Orders) {
    forall id :: id in SessionIds(s) && id in o ==> o[id].live
  }

  ghost predicate NewOrdersFit(before: Orders, after: Orders, bidRule: Rule, askRule: Rule) {
    forall id :: id in after && id !in before && after[id].postOnly ==>
      PriceFits(after[id].price, if after[id].side.Buy? then bidRule else askRule)
  }

  /** New orders are for these symbols, and those of others are moved by nobody but
      the venue. */
  ghost predicate OnlyMoved(before: Orders, after: Orders, symbols: set<Symbol>) {
    && Evolves(before, after)
    && (forall id :: id in after && id !in before ==> after[id].symbol in symbols)
    && (forall id :: id in before && id in after && before[id].symbol !in symbols ==> VenueMoves(before[id], after[id]))
  }

  ghost predicate SessionReported(changed: bool, was: Session, now: Session) {
    if changed then Ids(now.bids) != Ids(was.bids) || Ids(now.asks) != Ids(was.asks)
    else Ids(now.bids) <= Ids(was.bids) && Ids(now.asks) <= Ids(was.asks)
  }

  /** No order is both live and withdrawn. */
  ghost predicate NeverBoth(o: Orders) { forall id :: id in o && o[id].withdrawn ==> !o[id].live }

  lemma LevelsStored(s: Session, levels: seq<Quote>, side: Side)
    ensures LevelsOf(WithLevels(s, side, levels), side) == levels
    ensures side.Buy? ==> WithLevels(s, side, levels) == Session(levels, s.asks)
    ensures side.Sell? ==> WithLevels(s, side, levels) == Session(s.bids, levels)
  {
  }

  lemma OrphansKnown(sessions: map<Symbol, Session>, o: Orders)
    ensures OrphansOf(sessions, o) <= o.Keys
    ensures LiveAmong(OrphansOf(sessions, o), o) == OrphansOf(sessions, o)
  {
    hide Tracked;
  }

  lemma WorkingTwice(sessions: map<Symbol, Session>, o: Orders, symbol: Symbol)
    ensures var was := Working(sessions, o, symbol);
      PrunedSession(was, o) == was && FreshEntries(was, o)
  {
    var s := SessionOf(sessions, symbol);
    PrunedTwice(s.bids, o);
    PrunedTwice(s.asks, o);
    PrunedKeeps(s.bids, o);
    PrunedKeeps(s.asks, o);
    hide Ids, Pruned;
  }

  lemma TidyEntries(sessions: map<Symbol, Session>, o: Orders, symbol: Symbol)
    requires Tidy(sessions, o) && symbol in sessions
    ensures TidySide(sessions[symbol].bids, o, symbol, Buy) && TidySide(sessions[symbol].asks, o, symbol, Sell)
  {
    hide Distinct, Belong;
  }

  lemma SidesApart(x: seq<Quote>, y: seq<Quote>, o: Orders, symbol: Symbol)
    requires Belong(x, o, symbol, Buy) && Belong(y, o, symbol, Sell)
    ensures Ids(x) * Ids(y) == {}
  {
    hide Ids;
    forall id | id in Ids(x) ensures id !in Ids(y) {
    }
  }

  lemma {:induction false} PrunedFirst(levels: seq<Quote>, o: Orders)
    requires levels != [] && levels[0].id in o && o[levels[0].id].live
    ensures Pruned(levels, o) != [] && Pruned(levels, o)[0] == levels[0]
  {
    if |levels| > 1 {
      PrunedFirst(levels[..|levels| - 1], o);
    }
  }

  ghost predicate LosesLast(levels: seq<Quote>, lost: set<OrderId>) {
    levels != [] && lost == {levels[|levels| - 1].id}
  }

  /** What a side loses is one of the entries it started with, and not the first. */
  lemma LosesFrom(intent: Intent, settings: Settings, side: Side, was: Session, o: Orders, next: seq<Quote>,
                  outcome: Outcome, lost: set<OrderId>)
    requires var levels := LevelsOf(was, side);
      && Distinct(levels)
      && LosesOnly(intent, settings, side, PriceOf(intent, side), QtyOf(intent, side), Pruned(levels, o), next, outcome,
                   lost)
    ensures lost != {} ==> outcome.CancelRaised? && LosesOne(intent, settings, was, lost)
    ensures var levels := LevelsOf(was, side);
      lost != {} && Pruned(levels, o) == levels && |next| == |levels| - 1 ==> LosesLast(levels, lost)
  {
    hide Pruned, Distinct, PriceOf, Single;
    var levels := LevelsOf(was, side);
    var kept := Pruned(levels, o);
    if lost != {} {
      PrunedMembers(levels, o);
      var w := kept[|next|];
      assert w in levels;
      var j :| 0 <= j < |levels| && levels[j] == w;
      if j == 0 {
        PrunedFirst(levels, o);
        ApartAt(kept, 0, |next|);
        assert false;
      }
      assert HasSurplus(intent, settings, side, was) && lost == {LevelsOf(was, side)[j].id};
    }
  }

  lemma ApartAt(levels: seq<Quote>, i: nat, j: nat)
    requires Distinct(levels) && i < j < |levels|
    ensures Apart(levels[i], levels[j])
  {
  }

  /** What is lost to a venue that holds on to everything is live. */
  lemma LostIsOrphan(levels: seq<Quote>, o: Orders, orphans: set<OrderId>, lost: set<OrderId>)
    requires Pruned(levels, o) == levels && LosesLast(levels, lost)
    ensures lost <= LiveAmong(orphans + lost, o)
  {
    PrunedMembers(levels, o);
    hide Pruned;
    assert levels[|levels| - 1] in levels;
  }

  /** While only bids are moved, live asks stay live. */
  lemma QuietKeeps(start: Orders, middle: Orders, was: Session, symbol: Symbol)
    requires Belong(was.bids, start, symbol, Buy) && Belong(was.asks, start, symbol, Sell)
    requires OthersKept(start, middle, Ids(was.bids), true) && start.Keys <= middle.Keys
    requires Pruned(was.asks, start) == was.asks
    ensures Pruned(was.asks, middle) == was.asks
  {
    PrunedMembers(was.asks, start);
    hide Pruned, Ids, VenueMoves;
    forall w | w in was.asks ensures w.id in middle && middle[w.id].live {
      InIds(was.asks, w.id);
      assert start[w.id].side == Sell;
      assert w.id !in Ids(was.bids);
    }
    PrunedSame(was.asks, middle);
  }

  /** Bids were synced: the asks still stand for orders, none of them withdrawn, and
      under a quiet venue they are all still live. */
  lemma AsksKept(start: Orders, middle: Orders, rule: Rule, was: Session, bids: seq<Quote>, lost: set<OrderId>)
    requires Sound(start, middle, rule, was.bids, bids, lost)
    requires Belong(was.bids, start, rule.symbol, Buy) && Belong(was.asks, start, rule.symbol, Sell)
    requires Pruned(was.asks, start) == was.asks && forall id :: id in start && start[id].withdrawn ==> !start[id].live
    ensures Belong(was.asks, middle, rule.symbol, Sell) && NoneWithdrawn(was.asks, middle)
    ensures rule.quiet ==> Pruned(was.asks, middle) == was.asks
  {
    SidesApart(was.bids, was.asks, start, rule.symbol);
    PrunedNotWithdrawn(was.asks, start);
    hide Pruned, Distinct, PriceFits, Ids, VenueMoves, NoneWithdrawn;
    StayNotWithdrawn(start, middle, was.asks, Ids(was.bids), rule.quiet);
    assert forall id :: id in start ==> Moves(start[id], middle[id]);
    if rule.quiet {
      QuietKeeps(start, middle, was, rule.symbol);
    }
  }

  /** Syncing the asks cancels none of the bids. */
  lemma BidsNotWithdrawn(middle: Orders, end: Orders, rule: Rule, was: seq<Quote>, asks: seq<Quote>, bids: seq<Quote>,
                        lost: set<OrderId>)
    requires Sound(middle, end, rule, was, asks, lost) && NoneWithdrawn(bids, middle)
    requires Belong(bids, middle, rule.symbol, Buy) && Belong(was, middle, rule.symbol, Sell)
    ensures NoneWithdrawn(bids, end)
  {
    SidesApart(bids, was, middle, rule.symbol);
    hide Ids, PriceFits;
    StayNotWithdrawn(middle, end, bids, Ids(was), rule.quiet);
  }

  /** Buying side first, then the selling side: entries stay fresh and every new order
      fits the rule of its side. */
  lemma TwoSides(start: Orders, middle: Orders, end: Orders, was: Session, bids: seq<Quote>, asks: seq<Quote>,
                 bidRule: Rule, askRule: Rule, bidLost: set<OrderId>, askLost: set<OrderId>)
    requires bidRule.side.Buy? && askRule.side.Sell? && FreshEntries(was, start)
    requires Sound(start, middle, bidRule, was.bids, bids, bidLost)
    requires Sound(middle, end, askRule, was.asks, asks, askLost)
    ensures FreshEntries(Session(bids, asks), start)
    ensures NewOrdersFit(start, end, bidRule, askRule)
  {
    hide PriceFits, Ids, OthersKept;
    assert forall id :: id in middle ==> Moves(middle[id], end[id]);
  }

  /** Only this symbol's orders are touched. */
  lemma OneSymbol(start: Orders, middle: Orders, end: Orders, was: Session, bids: seq<Quote>, asks: seq<Quote>,
                  bidRule: Rule, askRule: Rule, bidLost: set<OrderId>, askLost: set<OrderId>)
    requires bidRule.symbol == askRule.symbol
    requires Belong(was.bids, start, bidRule.symbol, Buy) && Belong(was.asks, start, bidRule.symbol, Sell)
    requires Sound(start, middle, bidRule, was.bids, bids, bidLost)
    requires Sound(middle, end, askRule, was.asks, asks, askLost)
    ensures OnlyMoved(start, end, {bidRule.symbol})
  {
    hide NewFit, Ids, VenueMoves;
    EvolvesTransitive(start, middle, end);
    forall id | id in end && id !in start ensures end[id].symbol == bidRule.symbol {
      assert id in middle ==> Moves(middle[id], end[id]);
    }
    forall id | id in start && start[id].symbol != bidRule.symbol ensures VenueMoves(start[id], end[id]) {
      assert id in middle && id !in Ids(was.bids) && id !in Ids(was.asks);
      VenueMovesOn(start[id], middle[id], end[id]);
    }
  }

  lemma HoldsQuiet(v: Venue, side: Side)
    requires Holds(v, side)
    ensures v.settle.None?
  {
  }

  // --- Refreshes, cancels and runs ------------------------------------------------------------

  datatype Operation =
    | Refreshing(intents: seq<Intent>)
    | Cancelling(symbols: seq<Symbol>)
    | Pruning(symbol: Symbol)
    | Configuring(settings: Settings)
    | VenueActing

  function Configured(operation: Operation, settings: Settings): Settings {
    if operation.Configuring? then operation.settings else settings
  }

  function SettingsAt(operations: seq<Operation>, settings: Settings): Settings {
    if operations == [] then settings
    else Configured(operations[|operations| - 1], SettingsAt(operations[..|operations| - 1], settings))
  }

  lemma SettingsSnoc(operations: seq<Operation>, i: nat, settings: Settings)
    requires i < |operations|
    ensures SettingsAt(operations[..i + 1], settings)
         == Configured(operations[i], SettingsAt(operations[..i], settings))
  {
    assert operations[..i + 1][..i] == operations[..i];
  }

  function PerTick(settings: Settings): int { MaxInt(0, settings.maxRefreshPerTick) }

  predicate Names(symbols: seq<Symbol>, s: Symbol) { symbols == [] || s in symbols }

  function SymbolsOf(intents: seq<Intent>): set<Symbol> { set i | i in intents :: i.symbol }

  /** The symbols that hold an order newer than `o`. */
  ghost function QuotedAnew(sessions: map<Symbol, Session>, o: Orders): set<Symbol> {
    set s | s in sessions && !(SessionIds(sessions[s]) <= o.Keys)
  }

  ghost predicate SameElsewhere(a: map<Symbol, Session>, b: map<Symbol, Session>, symbols: set<Symbol>) {
    forall s :: s !in symbols ==> (s in a <==> s in b) && (s in a ==> b[s] == a[s])
  }

  /** One quote of one intent's side that runs in MAKE or CHASE. */
  ghost predicate LosesFor(intents: seq<Intent>, settings: Settings, lost: set<OrderId>, o: Orders) {
    exists k, side: Side, id ::
      && 0 <= k < |intents| && lost == {id} && id in o && o[id].symbol == intents[k].symbol && o[id].side == side
      && Single(intents[k], settings, side, PriceOf(intents[k], side), QtyOf(intents[k], side))
  }

  /** What an operation may lose, if it raises. */
  ghost predicate MayLose(operation: Operation, settings: Settings, lost: set<OrderId>, o: Orders) {
    match operation
    case Refreshing(intents) => settings.enabled && LosesFor(intents, settings, lost, o)
    case Cancelling(symbols) =>
      exists s :: Names(symbols, s) && forall id :: id in lost ==> id in o && o[id].symbol == s
    case _ => lost == {}
  }

  lemma MayLoseStays(operation: Operation, settings: Settings, lost: set<OrderId>, a: Orders, b: Orders)
    requires MayLose(operation, settings, lost, a) && Evolves(a, b)
    ensures MayLose(operation, settings, lost, b)
  {
    hide Single, PriceOf, QtyOf;
    assert forall id :: id in a ==> Moves(a[id], b[id]);
  }

  lemma MovedEvolves(a: Orders, b: Orders, symbols: set<Symbol>)
    requires OnlyMoved(a, b, symbols)
    ensures Evolves(a, b) && a.Keys <= b.Keys
  {
  }

  lemma EvolvesKeys(a: Orders, b: Orders)
    requires Evolves(a, b)
    ensures a.Keys <= b.Keys
  {
  }

  lemma SettlesEvolves(a: Orders, b: Orders)
    requires Settles(a, b)
    ensures Evolves(a, b)
  {
  }

  lemma NothingMoved(sessions: map<Symbol, Session>, o: Orders, intents: seq<Intent>)
    requires Tidy(sessions, o)
    ensures SameElsewhere(sessions, sessions, SymbolsOf(intents[..0])) && OnlyMoved(o, o, SymbolsOf(intents[..0]))
    ensures QuotedAnew(sessions, o) == {}
  {
    hide Ids, Distinct;
  }

  lemma OneMore(a: map<Symbol, Session>, b: map<Symbol, Session>, c: map<Symbol, Session>,
                x: Orders, y: Orders, z: Orders, intents: seq<Intent>, i: nat)
    requires i < |intents|
    requires SameElsewhere(a, b, SymbolsOf(intents[..i])) && OnlyMoved(x, y, SymbolsOf(intents[..i]))
    requires intents[i].symbol in c && c == b[intents[i].symbol := c[intents[i].symbol]]
    requires OnlyMoved(y, z, {intents[i].symbol})
    ensures SameElsewhere(a, c, SymbolsOf(intents[..i + 1])) && OnlyMoved(x, z, SymbolsOf(intents[..i + 1]))
  {
    assert intents[..i + 1] == intents[..i] + [intents[i]];
    assert SymbolsOf(intents[..i + 1]) == SymbolsOf(intents[..i]) + {intents[i].symbol};
    hide SymbolsOf, VenueMoves;
    EvolvesTransitive(x, y, z);
    forall id | id in z && id !in x ensures z[id].symbol in SymbolsOf(intents[..i + 1]) {
      assert id in y ==> Moves(y[id], z[id]);
    }
    forall id | id in x && id in z && x[id].symbol !in SymbolsOf(intents[..i + 1]) ensures VenueMoves(x[id], z[id]) {
      assert Moves(x[id], y[id]);
      VenueMovesOn(x[id], y[id], z[id]);
    }
  }

  /** A refresh quotes at most its own symbol anew, and none unless it reports so. */
  lemma AnewStep(given: map<Symbol, Session>, now: map<Symbol, Session>, start: Orders, before: Orders, symbol: Symbol,
                 outcome: Outcome)
    requires symbol in now && now == given[symbol := now[symbol]]
    requires outcome.Done? ==> SessionReported(outcome.changed, Working(given, before, symbol), now[symbol])
    ensures |QuotedAnew(now, start)|
         <= |QuotedAnew(given, start)| + if outcome.Done? && !outcome.changed then 0 else 1
  {
    hide Ids;
    SubsetSize(QuotedAnew(now, start), QuotedAnew(given, start) + {symbol});
    if outcome.Done? && !outcome.changed {
      var s := SessionOf(given, symbol);
      PrunedKeeps(s.bids, before);
      PrunedKeeps(s.asks, before);
      hide Pruned;
      IdsOfNone();
      assert SessionIds(now[symbol]) <= SessionIds(s);
      SubsetSize(QuotedAnew(now, start), QuotedAnew(given, start));
    }
  }

  lemma LosesForOne(intents: seq<Intent>, i: nat, settings: Settings, given: map<Symbol, Session>,
                    before: Orders, after: Orders, lost: set<OrderId>)
    requires i < |intents| && Tidy(given, before) && Evolves(before, after)
    requires LosesOne(intents[i], settings, Working(given, before, intents[i].symbol), lost)
    ensures LosesFor(intents, settings, lost, after)
  {
    hide Single, PriceOf, QtyOf, Pruned, Distinct;
    var symbol := intents[i].symbol;
    var was, s := Working(given, before, symbol), SessionOf(given, symbol);
    var side: Side, k :|
      && HasSurplus(intents[i], settings, side, was) && 1 <= k < |LevelsOf(was, side)|
      && lost == {LevelsOf(was, side)[k].id};
    var id := LevelsOf(was, side)[k].id;
    NothingPruned(before);
    PrunedKeeps(LevelsOf(s, side), before);
    assert id in Ids(LevelsOf(s, side));
    assert Moves(before[id], after[id]);
  }

  lemma LosesNamed(given: map<Symbol, Session>, before: Orders, after: Orders, symbols: seq<Symbol>,
                   sessions: map<Symbol, Session>, settings: Settings, lost: set<OrderId>)
    requires Tidy(given, before) && Evolves(before, after)
    requires exists s :: s in given && s !in sessions && Names(symbols, s) && lost == SessionIds(given[s])
    ensures MayLose(Cancelling(symbols), settings, lost, after)
    ensures lost <= after.Keys
  {
    hide Ids, Distinct;
    assert forall id :: id in before ==> Moves(before[id], after[id]);
  }

  ghost predicate NoneLive(s: Session, o: Orders) {
    forall id :: id in SessionIds(s) && id in o ==> !o[id].live
  }

  lemma NothingLive(o: Orders)
    ensures NoneLive(Session([], []), o)
  {
  }

  lemma AllNoneLive(s: Session, o: Orders)
    requires forall j :: 0 <= j < |s.bids + s.asks| && (s.bids + s.asks)[j].id in o ==> !o[(s.bids + s.asks)[j].id].live
    ensures NoneLive(s, o)
  {
    var all := s.bids + s.asks;
    forall id | id in SessionIds(s) && id in o ensures !o[id].live {
      if id in Ids(s.bids) {
        var i :| 0 <= i < |s.bids| && s.bids[i].id == id;
        assert all[i].id == id;
      } else {
        var i :| 0 <= i < |s.asks| && s.asks[i].id == id;
        assert all[|s.bids| + i].id == id;
      }
    }
  }

  lemma EntryOf(s: Session, i: nat)
    requires i < |s.bids + s.asks|
    ensures (s.bids + s.asks)[i].id in SessionIds(s)
  {
    InIds(s.bids, (s.bids + s.asks)[i].id);
    InIds(s.asks, (s.bids + s.asks)[i].id);
  }

  lemma EntryLive(s: Session, o: Orders, i: nat)
    requires i < |s.bids + s.asks| && (s.bids + s.asks)[i].id in o && o[(s.bids + s.asks)[i].id].live
    ensures !NoneLive(s, o)
  {
    var w := (s.bids + s.asks)[i];
    InIds(s.bids, w.id);
    InIds(s.asks, w.id);
  }

  lemma ForgottenIff(orphans: set<OrderId>, gone: Session, o: Orders)
    ensures orphans == {} ==> (LiveAmong(orphans + SessionIds(gone), o) == {} <==> NoneLive(gone, o))
  {
    hide SessionIds;
    if NoneLive(gone, o) && orphans == {} {
      assert LiveAmong(orphans + SessionIds(gone), o) == {};
    }
    if orphans == {} && !NoneLive(gone, o) {
      var id :| id in SessionIds(gone) && id in o && o[id].live;
      assert id in LiveAmong(orphans + SessionIds(gone), o);
    }
  }

  lemma JoinNothing(ids: set<OrderId>, b: Orders, c: Orders)
    requires Evolves(b, c) && ids <= b.Keys
    ensures LiveAmong(LiveAmong(ids, b), c) == LiveAmong(ids, c)
  {
    LiveTwice(ids, {}, b, c);
    assert LiveAmong(ids, b) + {} == LiveAmong(ids, b) && ids + {} == ids;
    hide LiveAmong;
  }

  /** Nothing of a session that has ended can be an orphan. */
  lemma NothingOrphaned(orphans: set<OrderId>, gone: Session, o: Orders)
    requires NoneLive(gone, o)
    ensures LiveAmong(orphans + SessionIds(gone), o) == LiveAmong(orphans, o)
  {
    hide SessionIds;
  }

  /** No order of a cleared symbol, or of any when all are cleared, is live. */
  ghost predicate NoneLiveOf(symbols: Option<seq<Symbol>>, o: Orders) {
    forall id :: id in o && (symbols.Some? ==> o[id].symbol in symbols.value) ==> !o[id].live
  }

  lemma ClearedIff(given: map<Symbol, Session>, now: map<Symbol, Session>, o: Orders, symbols: Option<seq<Symbol>>)
    requires OrphansOf(given, o) == {}
    requires now == match symbols case None => map[] case Some(list) => given - (set s | s in list)
    ensures OrphansOf(now, o) == {} <==> NoneLiveOf(symbols, o)
  {
    hide Ids;
    forall id | id in o && o[id].live ensures Tracked(given, o[id], id) {
      assert id !in OrphansOf(given, o);
    }
    if OrphansOf(now, o) == {} {
      forall id | id in o && (symbols.Some? ==> o[id].symbol in symbols.value) ensures !o[id].live {
        assert id !in OrphansOf(now, o);
      }
    } else {
      var id :| id in OrphansOf(now, o);
      assert Tracked(given, o[id], id);
    }
  }

  /** list(self._sessions.keys()), in some order. */
  method Listed(keys: set<Symbol>) returns (list: seq<Symbol>)
    ensures forall s :: s in list <==> s in keys
  {
    var left := keys;
    list := [];
    while left != {}
      invariant left <= keys && forall s :: s in list <==> s in keys - left
      decreases |left|
    {
      ghost var w := AnyOf(left);
      var s :| s in left;
      list, left := list + [s], left - {s};
    }
  }

  ghost predicate NoneRaised(raised: seq<bool>) { forall i :: 0 <= i < |raised| ==> !raised[i] }

  lemma NoneRaisedSnoc(raised: seq<bool>, failed: bool)
    ensures NoneRaised(raised + [failed]) <==> NoneRaised(raised) && !failed
  {
    var more := raised + [failed];
    assert forall i :: 0 <= i < |raised| ==> more[i] == raised[i];
    assert more[|raised|] == failed;
  }

  /** What each operation lost, it lost by raising, and it is what it may lose. */
  ghost predicate LostAsAllowed(operations: seq<Operation>, settings: Settings, raised: seq<bool>,
                                lost: seq<set<OrderId>>, o: Orders)
  {
    && |raised| == |lost| <= |operations|
    && forall i :: 0 <= i < |lost| && lost[i] != {} ==>
         raised[i] && MayLose(operations[i], SettingsAt(operations[..i], settings), lost[i], o)
  }

  lemma LostSnoc(operations: seq<Operation>, settings: Settings, raised: seq<bool>, lost: seq<set<OrderId>>,
                 a: Orders, b: Orders, failed: bool, gone: set<OrderId>)
    requires LostAsAllowed(operations, settings, raised, lost, a) && Evolves(a, b) && |lost| < |operations|
    requires gone != {} ==>
      failed && MayLose(operations[|lost|], SettingsAt(operations[..|lost|], settings), gone, b)
    ensures LostAsAllowed(operations, settings, raised + [failed], lost + [gone], b)
  {
    hide MayLose, SettingsAt, Evolves;
    forall k | 0 <= k < |lost| && lost[k] != {}
      ensures MayLose(operations[k], SettingsAt(operations[..k], settings), lost[k], b)
    {
      MayLoseStays(operations[k], SettingsAt(operations[..k], settings), lost[k], a, b);
    }
  }

  lemma {:induction false} CalmLosesNothing(lost: seq<set<OrderId>>, raised: seq<bool>, operations: seq<Operation>,
                                            settings: Settings, o: Orders)
    requires NoneRaised(raised) && LostAsAllowed(operations, settings, raised, lost, o)
    ensures LiveAmong(AllOf(lost), o) == {}
  {
    hide MayLose, SettingsAt;
    AllEmpty(lost, o);
  }

  /** The union of what every operation lost. */
  ghost function AllOf(lost: seq<set<OrderId>>): set<OrderId> {
    if lost == [] then {} else AllOf(lost[..|lost| - 1]) + lost[|lost| - 1]
  }

  lemma AllSnoc(lost: seq<set<OrderId>>, more: set<OrderId>)
    ensures AllOf(lost + [more]) == AllOf(lost) + more
  {
    assert (lost + [more])[..|lost|] == lost;
  }

  lemma {:induction false} AllEmpty(lost: seq<set<OrderId>>, o: Orders)
    requires forall i :: 0 <= i < |lost| ==> lost[i] == {}
    ensures AllOf(lost) == {} && LiveAmong(AllOf(lost), o) == {}
  {
    if lost != [] {
      AllEmpty(lost[..|lost| - 1], o);
    }
  }

  lemma NothingLost(sessions: map<Symbol, Session>, o: Orders)
    requires OrphansOf(sessions, o) == {}
    ensures OrphansOf(sessions, o) == LiveAmong(AllOf([]), o) && AllOf([]) == {}
  {
  }

  lemma EntriesOf(sessions: map<Symbol, Session>, o: Orders, symbol: Symbol)
    requires Tidy(sessions, o)
    ensures symbol in sessions ==>
      forall i :: 0 <= i < |sessions[symbol].bids + sessions[symbol].asks| ==>
        (sessions[symbol].bids + sessions[symbol].asks)[i].id in o
    ensures SessionIds(SessionOf(sessions, symbol)) <= o.Keys
  {
    if symbol in sessions {
      var s := sessions[symbol];
      var all := s.bids + s.asks;
      forall i | 0 <= i < |all| ensures all[i].id in o {
        InIds(s.bids, all[i].id);
        InIds(s.asks, all[i].id);
      }
    }
  }

  // --- The class ----------------------------------------------------------------------------

  class QuoteExecutor {
    const om: OrderManager
    const sizing: Sizing
    const wall: nat -> real       // time.time() after so many suspensions
    var settings: Settings
    var sessions: map<Symbol, Session>

    constructor (om: OrderManager, sizing: Sizing, wall: nat -> real, settings: Settings)
      requires om.Valid() && om.orders == map[]
      ensures this.om == om && this.sizing == sizing && this.wall == wall && this.settings == settings
      ensures sessions == map[] && Valid() && NoOrphans() && AllQuoted()
    {
      this.om, this.sizing, this.wall, this.settings := om, sizing, wall, settings;
      sessions := map[];
    }

    /** Entries are distinct and stand for orders of their side. */
    ghost predicate Valid()
      reads this, om
    {
      om.Valid() && Tidy(sessions, om.orders)
    }

    /** The live orders that are in no session. */
    ghost function Orphans(): set<OrderId>
      reads this, om
    {
      OrphansOf(sessions, om.orders)
    }

    /** Every live order is in its symbol's session. */
    ghost predicate NoOrphans()
      reads this, om
    {
      Orphans() == {}
    }

    /** The sessions hold live orders only. */
    ghost predicate AllQuoted()
      reads this, om
    {
      SessionsLive(sessions, om.orders)
    }

    /** What every step of one side starts from and ends with. */
    ghost predicate Ready(rule: Rule, levels: seq<Quote>)
      reads om
    {
      && om.Valid() && TidySide(levels, om.orders, rule.symbol, rule.side)
      && (rule.quiet ==> om.venue.settle.None?)
    }

    /** _place_level and the submit of _sync_take. */
    method PlaceLevel(t: Target, price: real, qty: real, level: nat, postOnly: bool, ghost levels: seq<Quote>)
      returns (placed: Option<Quote>, raised: bool)
      requires Ready(t.rule, levels) && (postOnly ==> PriceFits(price, t.rule))
      requires forall w :: w in levels ==> w.level != level
      modifies om
      ensures Ready(t.rule, Plus(levels, placed))
      ensures placed.Some? ==>
        var q := placed.value;
        && !raised && q.level == level && q.side == t.rule.side && q.id !in old(om.orders) && q.id in om.orders
        && q.price == om.orders[q.id].price == price && q.qty == om.orders[q.id].qty
        && sizing(t.rule.symbol, qty, price, t.reduceOnly) == Some(q.qty)
      ensures Sound(old(om.orders), om.orders, t.rule, levels, Plus(levels, placed), {})
      ensures !raised ==> Handled(old(om.orders), om.orders, t, sizing, price, qty, postOnly)
      ensures NoneWithdrawn(levels, old(om.orders)) ==> NoneWithdrawn(Plus(levels, placed), om.orders)
      ensures placed.Some? ==> Ids(Plus(levels, placed)) != Ids(levels)
      ensures placed.Some? ==>
        !om.orders[placed.value.id].withdrawn && (om.venue.settle.None? ==> om.orders[placed.value.id].live)
      ensures Accepts(om.venue) ==> !raised && (Sendable(t, sizing, price, qty) ==> placed.Some?)
      ensures placed.Some? ==> placed.value.posted == wall(om.clock)
      ensures
        (postOnly && WithinPlaceZone(t.rule.side, price, t.rule.touch, t.rule.placeBps)
         && !Sendable(t, sizing, price, qty)) ==>
        placed.None? && !raised && om.orders == old(om.orders) && om.clock == old(om.clock)
    {
      hide PriceFits, Distinct;
      var sized := if qty <= 0.0 || price <= 0.0 then None else sizing(t.rule.symbol, qty, price, t.reduceOnly);
      if sized.None? {
        SoundSame(om.orders, t.rule, levels);
        return None, false;
      }
      hide Ids, Sound;
      ghost var start, sentAs := om.orders, om.nextId;
      var reply := om.SubmitChild(t.rule.symbol, t.rule.side, price, sized.value, postOnly);
      assert sentAs in om.orders ==> om.orders[sentAs].price == price;
      raised := reply.Refused? && !Tolerated(reply.error);
      if reply.Placed? {
        placed := Some(Quote(reply.id, t.rule.side, price, sized.value, level, wall(om.clock)));
      } else {
        placed := None;
      }
      SoundPlace(start, om.orders, t.rule, levels, placed, om.venue.settle.None?);
      SoundEvolves(start, om.orders, t.rule, levels, Plus(levels, placed), {});
    }

    /** Cancel every entry of a side, then forget them. */
    method CancelSide(rule: Rule, levels: seq<Quote>) returns (next: seq<Quote>, ok: bool)
      requires Ready(rule, levels)
      modifies om
      ensures Ready(rule, next) && Sound(old(om.orders), om.orders, rule, levels, next, {})
      ensures om.orders.Keys == old(om.orders.Keys)
      ensures if ok then next == [] else next == levels
      ensures ok ==> forall id :: id in Ids(levels) && id in om.orders ==> !om.orders[id].live
      ensures Yields(om.venue, rule.side) || levels == [] ==> ok
      ensures levels == [] ==> om.orders == old(om.orders) && om.clock == old(om.clock)
    {
      hide Sound, Evolves, OthersKept, Distinct;
      SoundSame(om.orders, rule, levels);
      for i := 0 to |levels|
        invariant Ready(rule, levels) && Sound(old(om.orders), om.orders, rule, levels, levels, {})
        invariant om.orders.Keys == old(om.orders.Keys)
        invariant i == 0 ==> om.orders == old(om.orders) && om.clock == old(om.clock)
        invariant forall j :: 0 <= j < i && levels[j].id in om.orders ==> !om.orders[levels[j].id].live
      {
        ghost var now := om.orders;
        var cancelled := om.Cancel(levels[i].id);
        StaysEnded(now, om.orders, levels[..i]);
        SoundCancel(now, om.orders, rule, levels, levels[i], om.venue.settle.None?);
        SoundEvolves(now, om.orders, rule, levels, levels, {});
        SoundJoin(old(om.orders), now, om.orders, rule, levels, levels, levels);
        if !cancelled {
          return levels, false;
        }
      }
      AllEnded(om.orders, levels);
      SoundForget(om.orders, rule, levels, [], {});
      SoundJoin(old(om.orders), om.orders, om.orders, rule, levels, levels, []);
      NoneDistinct();
      return [], true;
    }

    /** Cancel one entry and forget it. */
    method CancelEntry(rule: Rule, levels: seq<Quote>, w: Quote) returns (next: seq<Quote>, ok: bool)
      requires Ready(rule, levels) && w in levels
      modifies om
      ensures Ready(rule, next) && Sound(old(om.orders), om.orders, rule, levels, next, {})
      ensures om.orders.Keys == old(om.orders.Keys)
      ensures next == if ok then Without(levels, w) else levels
      ensures ok && NoneWithdrawn(levels, old(om.orders)) ==> NoneWithdrawn(next, om.orders)
      ensures Yields(om.venue, rule.side) ==> ok
    {
      hide Sound, Evolves, OthersKept, Distinct, Ids;
      ghost var start := om.orders;
      InIds(levels, w.id);
      ok := om.Cancel(w.id);
      next := levels;
      SoundCancel(start, om.orders, rule, levels, w, om.venue.settle.None?);
      SoundEvolves(start, om.orders, rule, levels, levels, {});
      if ok {
        next := Without(levels, w);
        SoundRemove(om.orders, rule, levels, w);
        SoundEvolves(om.orders, om.orders, rule, levels, next, {});
        SoundJoin(start, om.orders, om.orders, rule, levels, levels, next);
        WithoutKeeps(levels, w);
        LevelFreed(levels, w);
        if NoneWithdrawn(levels, start) {
          StayNotWithdrawn(start, om.orders, next, {w.id}, om.venue.settle.None?);
        }
      }
    }

    /** The loop of _sync_single that pops surplus entries: an entry leaves the session
        before its cancel, so a cancel that raises loses it. */
    method TrimToOne(rule: Rule, levels: seq<Quote>) returns (next: seq<Quote>, ok: bool, ghost lost: set<OrderId>)
      requires Ready(rule, levels) && NoneWithdrawn(levels, om.orders)
      modifies om
      ensures Ready(rule, next) && NoneWithdrawn(next, om.orders)
      ensures Sound(old(om.orders), om.orders, rule, levels, next, lost)
      ensures om.orders.Keys == old(om.orders.Keys)
      ensures if ok then lost == {} && next == (if |levels| <= 1 then levels else levels[..1])
              else Popped(levels, next, lost)
      ensures |levels| <= 1 ==> ok && om.orders == old(om.orders) && om.clock == old(om.clock)
      ensures Yields(om.venue, rule.side) ==> ok
      ensures Holds(om.venue, rule.side) && |levels| > 1 && Pruned(levels, old(om.orders)) == levels ==>
        !ok && |next| == |levels| - 1 && om.orders == old(om.orders)
    {
      hide Sound, Evolves, OthersKept, Distinct, Ids, Pruned;
      next, lost := levels, {};
      ghost var start := om.orders;
      SoundSame(om.orders, rule, levels);
      PrunedKeeps(levels, om.orders);
      assert levels[..|levels|] == levels;
      while |next| > 1
        invariant Ready(rule, next) && Sound(start, om.orders, rule, levels, next, {})
        invariant NoneWithdrawn(next, om.orders)
        invariant om.orders.Keys == start.Keys
        invariant |next| <= |levels| && next == levels[..|next|] && (|levels| >= 1 ==> |next| >= 1)
        invariant |levels| <= 1 ==> om.orders == start && om.clock == old(om.clock)
        invariant Holds(om.venue, rule.side) && Pruned(levels, start) == levels ==>
          next == levels && om.orders == start
      {
        ghost var now, was := om.orders, next;
        var extra := next[|next| - 1];
        next := next[..|next| - 1];
        assert was == next + [extra];
        IdsSnoc(next, extra);
        LastApart(was);
        var cancelled := om.Cancel(extra.id);
        SoundCancel(now, om.orders, rule, was, extra, om.venue.settle.None?);
        SoundEvolves(now, om.orders, rule, was, was, {});
        SoundJoin(start, now, om.orders, rule, levels, was, was);
        forall id | id in Ids(next) ensures id != extra.id {
          InIds(next, id);
        }
        StayNotWithdrawn(now, om.orders, next, {extra.id}, om.venue.settle.None?);
        if !cancelled {
          SoundForget(om.orders, rule, was, next, {extra.id});
          SoundChain(start, om.orders, om.orders, rule, levels, was, next, {}, {extra.id});
          assert {} + {extra.id} == {extra.id};
          return next, false, {extra.id};
        }
        SoundForget(om.orders, rule, was, next, {});
        SoundJoin(start, om.orders, om.orders, rule, levels, was, next);
      }
      ok := true;
    }

    /** The start of _sync_single: surplus entries go, and the size of the first is
        brought up to date. */
    method KeepWorking(rule: Rule, levels: seq<Quote>) returns (next: seq<Quote>, ok: bool, ghost lost: set<OrderId>)
      requires Ready(rule, levels)
      modifies om
      ensures Ready(rule, next) && NoneWithdrawn(next, om.orders)
      ensures Sound(old(om.orders), om.orders, rule, levels, next, lost)
      ensures om.orders.Keys == old(om.orders.Keys)
      ensures var kept := Pruned(levels, old(om.orders));
        && (if ok then lost == {} && (if kept == [] then next == [] else KeepsFirst(kept, next))
            else Popped(kept, next, lost))
        && (|kept| <= 1 ==> ok && om.orders == old(om.orders) && om.clock == old(om.clock))
        && (|kept| == 1 ==> next[0].qty == Remaining(old(om.orders), kept[0]))
        && (Holds(om.venue, rule.side) && |kept| > 1 ==> !ok && |next| == |kept| - 1 && om.orders == old(om.orders))
      ensures Yields(om.venue, rule.side) ==> ok
    {
      hide Sound, Evolves, Pruned, Ids, NoneWithdrawn, Belong, Distinct, Popped, Holds, Yields, OthersKept;
      ghost var start := om.orders;
      var kept := Pruned(levels, om.orders);
      SoundPrune(om.orders, rule, levels);
      SoundEvolves(start, start, rule, levels, kept, {});
      PrunedKeeps(levels, om.orders);
      PrunedNotWithdrawn(levels, om.orders);
      PrunedTwice(levels, om.orders);
      next, ok, lost := TrimToOne(rule, kept);
      SoundChain(start, start, om.orders, rule, levels, kept, next, {}, lost);
      assert {} + lost == lost;
      if ok && next != [] {
        var working := next[0];
        if working.id in om.orders {
          var child := om.orders[working.id];
          working := working.(qty := Max(0.0, child.qty - child.filled));
        }
        SoundRename(om.orders, rule, next, working);
        SoundEvolves(om.orders, om.orders, rule, next, [working], {});
        SoundJoin(start, om.orders, om.orders, rule, levels, next, [working]);
        SameIdsNotWithdrawn(next, [working], om.orders);
        OneDistinct(working);
        next := [working];
      }
    }

    /** The end of _sync_single and _sync_climb: one order, if its price is in the zone. */
    method PlaceAlone(t: Target, price: real) returns (next: seq<Quote>, outcome: Outcome)
      requires Ready(t.rule, []) && !Crosses(t.rule.side, price, t.rule.touch)
      requires t.rule.placeBps == settings.placeBps
      modifies om
      ensures Ready(t.rule, next) && Sound(old(om.orders), om.orders, t.rule, [], next, {})
      ensures |next| <= 1 && NoneWithdrawn(next, om.orders) && !outcome.CancelRaised?
      ensures outcome.Done? ==> if outcome.changed then next != [] && next[0].id !in old(om.orders) else next == []
      ensures outcome.Done? ==> Handled(old(om.orders), om.orders, t, sizing, price, t.qty, true)
      ensures Accepts(om.venue) ==> outcome.Done? && (next == [] ==> !Sendable(t, sizing, price, t.qty))
      ensures forall w :: w in next ==>
        w.price == price && w.id !in old(om.orders)
        && WithinPlaceZone(t.rule.side, price, t.rule.touch, t.rule.placeBps)
      ensures !Sendable(t, sizing, price, t.qty) ==>
        next == [] && outcome == Done(false) && om.orders == old(om.orders) && om.clock == old(om.clock)
    {
      hide Sound, WithinPlaceZone, Crosses, Handled, Distinct, Belong, Ids, Accepts;
      NoneWithdrawnNone(om.orders);
      if !WithinPlaceZone(t.rule.side, price, t.rule.touch, t.rule.placeBps) {
        OutOfZone(om.orders, om.orders, t, sizing, price, t.qty);
        SoundSame(om.orders, t.rule, []);
        return [], Done(false);
      }
      var placed, raised := PlaceLevel(t, price, t.qty, 0, true, []);
      next := Plus([], placed);
      outcome := if raised then RejectRaised else Done(placed.Some?);
    }

    /** _sync_single: MAKE and CHASE. */
    method SyncSingle(t: Target, levels: seq<Quote>, chase: bool)
      returns (next: seq<Quote>, outcome: Outcome, ghost lost: set<OrderId>)
      requires Ready(t.rule, levels) && !Crosses(t.rule.side, t.price, t.rule.touch)
      requires t.rule.placeBps == settings.placeBps
      modifies om
      ensures Ready(t.rule, next) && Sound(old(om.orders), om.orders, t.rule, levels, next, lost)
      ensures var kept := Pruned(levels, old(om.orders));
        && (lost != {} ==> outcome.CancelRaised? && Popped(kept, next, lost))
        && (Holds(om.venue, t.rule.side) && |kept| > 1 ==>
              outcome.CancelRaised? && lost != {} && |next| == |kept| - 1 && om.orders == old(om.orders))
        && (outcome.Done? ==>
              || Handled(old(om.orders), om.orders, t, sizing, t.price, t.qty, true)
              || (KeepsFirst(kept, next)
                  && exists now :: KeepsSingle(t, next[0], next[0].qty, chase, settings, now)))
        && (|kept| == 1 ==>
              if KeepsSingle(t, kept[0], Remaining(old(om.orders), kept[0]), chase, settings, wall(old(om.clock)))
              then outcome == Done(false) && om.orders == old(om.orders) && om.clock == old(om.clock)
              else outcome.Done? ==> Ended(kept[0], om.orders))
        && (kept == [] && !Sendable(t, sizing, t.price, t.qty) ==>
              outcome == Done(false) && om.orders == old(om.orders) && om.clock == old(om.clock))
      ensures Accepts(om.venue) && (Yields(om.venue, t.rule.side) || levels == []) ==> outcome.Done?
      ensures !outcome.CancelRaised? ==> NoneWithdrawn(next, om.orders)
      ensures outcome.Done? ==> |next| <= 1 && Reported(outcome.changed, levels, next)
      ensures outcome.Done? ==> Shallow(levels, next, old(om.orders), t.rule.side, t.rule.touch, settings.cancelBps)
      ensures outcome.Done? ==> SingleDone(t, next)
    {
      hide Sound, Evolves, WithinPlaceZone, Crosses, ChaseShouldReplace, QuoteUnchanged, CancelReason, Pruned, Ids;
      hide Handled, NoneWithdrawn, Belong, Distinct, Reported, Holds, Accepts, Yields, SingleDone, Sendable, Shallow;
      lost := {};
      ghost var start := om.orders;
      var ok: bool;
      NothingPruned(start);
      next, ok, lost := KeepWorking(t.rule, levels);
      if !ok {
        return next, CancelRaised, lost;
      }
      ReportNone(start, om.orders, t.rule, levels, next, {});
      if next != [] {
        var working, now := next[0], wall(om.clock);
        assert next == [working];
        var reason := CancelReason(t.rule.side, working.price, t.price, t.rule.touch, settings.cancelBps,
                                   working.posted, settings.minRest, now);
        if reason.None? && chase {
          if !ChaseShouldReplace(working.price, working.qty, t.price, t.qty, settings.refreshBps) {
            assert KeepsSingle(t, next[0], next[0].qty, chase, settings, now);
            SingleKept(t, levels, start, next, chase, now);
            return next, Done(false), {};
          }
        } else if reason.None? && QuoteUnchanged(working.price, working.qty, t.price, t.qty, t.tick) {
          SingleKept(t, levels, start, next, chase, now);
          assert KeepsSingle(t, next[0], next[0].qty, chase, settings, now);
          return next, Done(false), {};
        } else if reason.None? {
          SingleKept(t, levels, start, next, chase, now);
          assert KeepsSingle(t, next[0], next[0].qty, chase, settings, now);
          return next, Done(false), {};
        }
        ghost var before, was := om.orders, next;
        next, ok := CancelEntry(t.rule, next, working);
        SoundJoin(start, before, om.orders, t.rule, levels, was, next);
        if !ok {
          return next, CancelRaised, {};
        }
        assert [working][..0] == [];
        assert next == [];
      }
      ghost var before := om.orders;
      SoundEvolves(start, before, t.rule, levels, next, {});
      next, outcome := PlaceAlone(t, t.price);
      AloneDone(start, before, om.orders, t, levels, next, outcome, t.price);
      SingleReplaced(t, levels, start, before, next, outcome);
      AllGone(levels, next, start, om.orders, t.rule);
    }

    /** What MAKE and CHASE leave: a quote no better than the target and, if the keep zone
        contains the place zone, not too deep; and none only if none can be sent. */
    ghost predicate SingleDone(t: Target, next: seq<Quote>)
      reads this`settings
    {
      && |next| <= 1
      && (forall w :: w in next ==>
            && !Aggressive(t.rule.side, w.price, t.price)
            && (ZonesNest() ==> !Deep(t.rule.side, w.price, t.rule.touch, settings.cancelBps)))
      && (next == [] && Accepts(om.venue) ==> !Sendable(t, sizing, t.price, t.qty))
    }

    predicate ZonesNest()
      reads this`settings
    {
      settings.cancelBps <= 0.0 || 0.0 < settings.placeBps <= settings.cancelBps
    }

    lemma SingleKept(t: Target, levels: seq<Quote>, start: Orders, next: seq<Quote>, chase: bool, now: real)
      requires KeepsFirst(Pruned(levels, start), next)
      requires Rests(t, next[0], t.price, settings, now)
      ensures Shallow(levels, next, start, t.rule.side, t.rule.touch, settings.cancelBps) && SingleDone(t, next)
    {
      PrunedMembers(levels, start);
      hide Pruned, Sendable;
      assert Pruned(levels, start)[0] in levels;
    }

    lemma SingleReplaced(t: Target, levels: seq<Quote>, start: Orders, before: Orders, next: seq<Quote>,
                         outcome: Outcome)
      requires start.Keys <= before.Keys && t.rule.placeBps == settings.placeBps
      requires |next| <= 1
      requires forall w :: w in next ==>
        w.price == t.price && w.id !in before
        && WithinPlaceZone(t.rule.side, t.price, t.rule.touch, t.rule.placeBps)
      requires Accepts(om.venue) && next == [] ==> !Sendable(t, sizing, t.price, t.qty)
      ensures Shallow(levels, next, start, t.rule.side, t.rule.touch, settings.cancelBps) && SingleDone(t, next)
    {
      hide Accepts, Sendable, WithinPlaceZone, Deep;
      if next != [] && ZonesNest() {
        assert next[0] in next;
        if settings.cancelBps > 0.0 {
          PlaceableIsKept(t.rule.side, t.price, t.rule.touch, settings.placeBps, settings.cancelBps);
        } else {
          assert !Deep(t.rule.side, t.price, t.rule.touch, settings.cancelBps) by { NeverDeep(t, settings.cancelBps); }
        }
      }
    }

    lemma NeverDeep(t: Target, cancelBps: real)
      requires cancelBps <= 0.0
      ensures !Deep(t.rule.side, t.price, t.rule.touch, cancelBps)
    {
    }

    /** What placing a single order means for the side it replaces. */
    lemma AloneDone(start: Orders, before: Orders, after: Orders, t: Target, levels: seq<Quote>, next: seq<Quote>,
                    outcome: Outcome, price: real)
      requires Sound(start, before, t.rule, levels, [], {}) && Sound(before, after, t.rule, [], next, {})
      requires start.Keys <= before.Keys && Belong(levels, start, t.rule.symbol, t.rule.side)
      requires outcome.Done? ==> if outcome.changed then next != [] && next[0].id !in before else next == []
      requires outcome.Done? ==> Handled(before, after, t, sizing, price, t.qty, true)
      ensures Sound(start, after, t.rule, levels, next, {})
      ensures outcome.Done? ==> Reported(outcome.changed, levels, next)
      ensures outcome.Done? ==> Handled(start, after, t, sizing, price, t.qty, true)
    {
      hide Sound, Handled, Belong, Ids;
      SoundJoin(start, before, after, t.rule, levels, [], next);
      EntriesKnown(levels, start, t.rule);
      if outcome.Done? {
        HandledSince(start, before, after, t, sizing, price, t.qty, true);
        NoneDistinct();
        if outcome.changed {
          ReportPlaced(levels, next, start, next[0]);
        }
      }
    }

    /** _sync_climb */
    method SyncClimb(t: Target, levels: seq<Quote>) returns (next: seq<Quote>, outcome: Outcome)
      requires Ready(t.rule, levels) && !Crosses(t.rule.side, t.price, t.rule.touch) && t.tick > 0.0
      requires t.rule.placeBps == settings.placeBps
      modifies om
      ensures Ready(t.rule, next) && Sound(old(om.orders), om.orders, t.rule, levels, next, {})
      ensures Accepts(om.venue) && (Yields(om.venue, t.rule.side) || levels == []) ==> outcome.Done?
      ensures !outcome.CancelRaised? ==> NoneWithdrawn(next, om.orders)
      ensures outcome.Done? ==> |next| <= 1 && Reported(outcome.changed, levels, next)
      ensures outcome.Done? && Pruned(levels, old(om.orders)) == [] ==>
        Handled(old(om.orders), om.orders, t, sizing, t.price, t.qty, true)
      ensures outcome.Done? && Pruned(levels, old(om.orders)) != [] ==>
        var first := Pruned(levels, old(om.orders))[0];
        var px := ClimbNextPrice(t.rule.side, first.price, t.price, t.tick, MaxInt(1, settings.climbTicks));
        || (Abs(px - first.price) < t.tick * 0.25 && next == [first]
            && exists now :: Rests(t, first, t.price, settings, now))
        || Handled(old(om.orders), om.orders, t, sizing, px, t.qty, true)
        || Handled(old(om.orders), om.orders, t, sizing, t.price, t.qty, true)
      ensures var kept := Pruned(levels, old(om.orders));
        && (|kept| == 1 ==>
              if KeepsClimbing(t, kept[0], settings, wall(old(om.clock)))
              then outcome == Done(false) && om.orders == old(om.orders) && om.clock == old(om.clock)
              else outcome.Done? ==> Ended(kept[0], om.orders))
        && (kept == [] && !Sendable(t, sizing, t.price, t.qty) ==>
              outcome == Done(false) && om.orders == old(om.orders) && om.clock == old(om.clock))
      ensures outcome.Done? ==> Shallow(levels, next, old(om.orders), t.rule.side, t.rule.touch, settings.cancelBps)
    {
      hide Shallow, Sendable, Accepts, Yields;
      hide Sound, Evolves, WithinPlaceZone, Crosses, CancelReason, ClimbNextPrice, Pruned, Ids, Handled;
      hide NoneWithdrawn, Reported, Distinct, Belong;
      ghost var start := om.orders;
      var ok: bool;
      NothingPruned(start);
      next, ok := KeepFirst(t.rule, levels);
      if !ok {
        return next, CancelRaised;
      }
      ReportNone(start, om.orders, t.rule, levels, next, {});
      var target := t.price;
      if next != [] {
        var working, now := next[0], wall(om.clock);
        assert next == [working];
        var reason := CancelReason(t.rule.side, working.price, target, t.rule.touch, settings.cancelBps,
                                   working.posted, settings.minRest, now);
        if reason.None? {
          var nextPx := ClimbNextPrice(t.rule.side, working.price, target, t.tick, MaxInt(1, settings.climbTicks));
          if Abs(nextPx - working.price) < t.tick * 0.25 {
            assert Rests(t, working, t.price, settings, now);
            RestingIsShallow(t, levels, start, next, now);
            return next, Done(false);
          }
          CalmClimbFits(t, working, settings.cancelBps, settings.minRest, now, MaxInt(1, settings.climbTicks));
          target := nextPx;
        }
        ghost var before, was := om.orders, next;
        next, ok := CancelEntry(t.rule, next, working);
        SoundJoin(start, before, om.orders, t.rule, levels, was, next);
        if !ok {
          return next, CancelRaised;
        }
        assert [working][..0] == [];
        assert next == [];
      }
      ghost var before := om.orders;
      SoundEvolves(start, before, t.rule, levels, next, {});
      next, outcome := PlaceAlone(t, target);
      AloneDone(start, before, om.orders, t, levels, next, outcome, target);
      AllGone(levels, next, start, om.orders, t.rule);
      NewIsShallow(levels, next, start, t.rule, settings.cancelBps);
    }

    lemma RestingIsShallow(t: Target, levels: seq<Quote>, start: Orders, next: seq<Quote>, now: real)
      requires Pruned(levels, start) != [] && next == [Pruned(levels, start)[0]]
      requires Rests(t, next[0], t.price, settings, now)
      ensures Shallow(levels, next, start, t.rule.side, t.rule.touch, settings.cancelBps)
    {
      PrunedMembers(levels, start);
      hide Pruned;
      assert Pruned(levels, start)[0] in levels;
    }

    /** The start of _sync_climb: all working entries but the first are cancelled, and
        only then forgotten. */
    method KeepFirst(rule: Rule, levels: seq<Quote>) returns (next: seq<Quote>, ok: bool)
      requires Ready(rule, levels)
      modifies om
      ensures Ready(rule, next) && Sound(old(om.orders), om.orders, rule, levels, next, {})
      ensures om.orders.Keys == old(om.orders.Keys)
      ensures Yields(om.venue, rule.side) || |Pruned(levels, old(om.orders))| <= 1 ==> ok
      ensures ok ==> NoneWithdrawn(next, om.orders)
      ensures var kept := Pruned(levels, old(om.orders));
        && next == (if ok && |kept| > 1 then kept[..1] else kept)
        && (|kept| <= 1 ==> om.orders == old(om.orders) && om.clock == old(om.clock))
    {
      hide Sound, Evolves, OthersKept, Pruned, Ids, NoneWithdrawn, Distinct;
      ghost var start := om.orders;
      next := Pruned(levels, om.orders);
      SoundPrune(om.orders, rule, levels);
      SoundEvolves(start, start, rule, levels, next, {});
      PrunedKeeps(levels, om.orders);
      PrunedNotWithdrawn(levels, om.orders);
      ghost var kept := next;
      FirstClear(next, om.orders, rule);
      var i := 1;
      while i < |next|
        invariant |kept| <= 1 ==> om.orders == start && om.clock == old(om.clock)
        invariant 1 <= i && next == kept && Ready(rule, next) && Sound(start, om.orders, rule, levels, next, {})
        invariant om.orders.Keys == start.Keys
        invariant next != [] ==> next[0].id in om.orders && !om.orders[next[0].id].withdrawn
        invariant forall j :: 1 <= j < i && j < |next| && next[j].id in om.orders ==> !om.orders[next[j].id].live
      {
        ghost var now := om.orders;
        EntryBelongs(next, i, om.orders, rule);
        var cancelled := om.Cancel(next[i].id);
        StaysEnded(now, om.orders, next);
        SoundCancel(now, om.orders, rule, next, next[i], om.venue.settle.None?);
        SoundEvolves(now, om.orders, rule, next, next, {});
        SoundJoin(start, now, om.orders, rule, levels, next, next);
        FirstStays(now, om.orders, next, i, om.venue.settle.None?);
        if !cancelled {
          return next, false;
        }
        i := i + 1;
      }
      if |next| > 1 {
        next := next[..1];
        FirstOnly(om.orders, rule, kept);
        SoundEvolves(om.orders, om.orders, rule, kept, next, {});
        SoundJoin(start, om.orders, om.orders, rule, levels, kept, next);
        PrefixDistinct(kept, 1);
      }
      OneNotWithdrawn(next, om.orders);
      ok := true;
    }

    /** The first pass of _sync_ladder: entries whose level is not wanted go. */
    method DropUnwanted(rule: Rule, levels: seq<Quote>, targets: seq<LevelTarget>)
      returns (next: seq<Quote>, ok: bool, changed: bool)
      requires Ready(rule, levels) && NoneWithdrawn(levels, om.orders)
      modifies om
      ensures Ready(rule, next) && Sound(old(om.orders), om.orders, rule, levels, next, {})
      ensures om.orders.Keys == old(om.orders.Keys)
      ensures Yields(om.venue, rule.side) || levels == [] ==> ok
      ensures ok ==> NoneWithdrawn(next, om.orders)
      ensures ok ==> forall w :: w in next <==> w in levels && Wanted(w.level, targets)
      ensures ok ==> (changed <==> exists w :: w in levels && !Wanted(w.level, targets))
      ensures levels == [] ==> next == []
    {
      hide Sound, Evolves, Wanted, Distinct, Ids, Belong, NoneWithdrawn;
      next, changed := levels, false;
      SoundSame(om.orders, rule, levels);
      for i := 0 to |levels|
        invariant Ready(rule, next) && Sound(old(om.orders), om.orders, rule, levels, next, {})
        invariant om.orders.Keys == old(om.orders.Keys)
        invariant NoneWithdrawn(next, om.orders)
        invariant forall w :: w in next <==> w in levels && (Wanted(w.level, targets) || w !in levels[..i])
        invariant changed <==> exists w :: w in levels[..i] && !Wanted(w.level, targets)
        invariant levels == [] ==> next == []
      {
        var w := levels[i];
        assert levels[..i + 1] == levels[..i] + [w];
        if !Wanted(w.level, targets) {
          ghost var now, was := om.orders, next;
          NotBefore(levels, i);
          var cancelled: bool;
          next, cancelled := CancelEntry(rule, next, w);
          WithoutKeeps(was, w);
          SoundJoin(old(om.orders), now, om.orders, rule, levels, was, next);
          if !cancelled {
            return next, false, changed;
          }
          changed := true;
        }
      }
      assert levels[..|levels|] == levels;
      ok := true;
    }

    /** The first half of a rung: its quote is left alone, or cancelled. */
    method ClearRung(t: Target, levels: seq<Quote>, w: Quote, lt: LevelTarget, climb: bool, now: real)
      returns (next: seq<Quote>, left: bool, ok: bool)
      requires Ready(t.rule, levels) && NoneWithdrawn(levels, om.orders) && w in levels && w.level == lt.level
      modifies om
      ensures Ready(t.rule, next) && Sound(old(om.orders), om.orders, t.rule, levels, next, {})
      ensures om.orders.Keys == old(om.orders.Keys)
      ensures left == KeepsRung(t, w, lt, climb, settings, now)
      ensures left ==> ok && next == levels && om.orders == old(om.orders) && om.clock == old(om.clock)
      ensures !left && ok ==> next == Without(levels, w) && forall x :: x in next ==> x.level != lt.level
      ensures Ids(next) <= Ids(levels)
      ensures ok ==> NoneWithdrawn(next, om.orders)
      ensures Yields(om.venue, t.rule.side) ==> ok
    {
      hide Sound, Evolves, Ids, CancelReason, ClimbNextPrice, ChaseShouldReplace, NoneWithdrawn, Distinct, Belong;
      SoundSame(om.orders, t.rule, levels);
      var reason := CancelReason(t.rule.side, w.price, lt.price, t.rule.touch, settings.cancelBps, w.posted,
                                 settings.minRest, now);
      var px := RungPrice(t, Some(w), lt, climb);
      if reason.None? && climb && Abs(px - w.price) < t.tick * 0.25 {
        return levels, true, true;
      }
      if reason.None? && !climb && !ChaseShouldReplace(w.price, w.qty, lt.price, lt.qty, settings.refreshBps) {
        return levels, true, true;
      }
      left := false;
      next, ok := CancelEntry(t.rule, levels, w);
      WithoutKeeps(levels, w);
      LevelFreed(levels, w);
    }

    /** One rung of _sync_ladder: keep, or cancel and place again. */
    method SyncRung(t: Target, levels: seq<Quote>, working: Option<Quote>, lt: LevelTarget, climb: bool, now: real)
      returns (next: seq<Quote>, outcome: Outcome)
      requires Ready(t.rule, levels) && NoneWithdrawn(levels, om.orders) && t.tick > 0.0
      requires !Crosses(t.rule.side, lt.price, t.rule.touch)
      requires t.rule.placeBps == settings.placeBps
      requires working.Some? ==> working.value in levels && working.value.level == lt.level
      requires working.None? ==> forall w :: w in levels ==> w.level != lt.level
      requires climb && working.Some? ==>
        {SteppedBack(t.rule.side, working.value.price, ClimbStep(t.tick)), working.value.price} <= t.rule.stale
      modifies om
      ensures Ready(t.rule, next) && Sound(old(om.orders), om.orders, t.rule, levels, next, {})
      ensures Accepts(om.venue) && (Yields(om.venue, t.rule.side) || working.None?) ==> outcome.Done?
      ensures Accepts(om.venue) && working.None? && Sendable(t, sizing, lt.price, lt.qty) ==> |next| == |levels| + 1
      ensures !outcome.CancelRaised? ==> NoneWithdrawn(next, om.orders)
      ensures outcome.Done? ==> forall w :: w in next && w.level != lt.level ==> w in levels
      ensures outcome.Done? ==> forall w :: w in levels && w.level != lt.level ==> w in next
      ensures outcome.Done? ==> forall w :: w in next ==> w in levels || w.id !in old(om.orders)
      ensures outcome.Done? && outcome.changed ==>
        exists w :: w in next && w.level == lt.level && w.id !in old(om.orders)
      ensures outcome.Done? && !outcome.changed ==> Ids(next) <= Ids(levels)
      ensures if working.Some? && KeepsRung(t, working.value, lt, climb, settings, now)
        then outcome == Done(false) && next == levels && om.orders == old(om.orders) && om.clock == old(om.clock)
        else outcome.Done? ==>
          && Handled(old(om.orders), om.orders, t, sizing, RungPrice(t, working, lt, climb), lt.qty, true)
          && (working.Some? ==> working.value !in next)
    {
      hide Sound, Evolves, Ids, WithinPlaceZone, Crosses, CancelReason, ClimbNextPrice, ChaseShouldReplace, Handled;
      hide NoneWithdrawn, Distinct, Belong, KeepsRung, Without, Sendable, Accepts, Yields, SteppedBack;
      ghost var start := om.orders;
      EntriesKnown(levels, start, t.rule);
      next := levels;
      SoundSame(om.orders, t.rule, levels);
      if working.Some? {
        InIds(levels, working.value.id);
        var left: bool, ok: bool;
        next, left, ok := ClearRung(t, levels, working.value, lt, climb, now);
        if left || !ok {
          return next, if left then Done(false) else CancelRaised;
        }
        WithoutKeeps(levels, working.value);
        if climb {
          RungClimbFits(t, lt.price, working.value, MaxInt(1, settings.climbTicks), RungPrice(t, working, lt, climb));
        }
      }
      var px := RungPrice(t, working, lt, climb);
      assert forall w :: w in next ==> w.level != lt.level;
      if !WithinPlaceZone(t.rule.side, px, t.rule.touch, t.rule.placeBps) {
        OutOfZone(start, om.orders, t, sizing, px, lt.qty);
        return next, Done(false);
      }
      ghost var before, was := om.orders, next;
      SoundEvolves(start, before, t.rule, levels, next, {});
      var placed, raised := PlaceLevel(t, px, lt.qty, lt.level, true, next);
      next := Plus(next, placed);
      assert placed.Some? ==> placed.value in next;
      SoundJoin(start, before, om.orders, t.rule, levels, was, next);
      if !raised {
        HandledSince(start, before, om.orders, t, sizing, px, lt.qty, true);
      }
      outcome := if raised then RejectRaised else Done(placed.Some?);
    }

    /** The price a rung is placed at. */
    function RungPrice(t: Target, working: Option<Quote>, lt: LevelTarget, climb: bool): real
      reads this`settings
    {
      if climb && working.Some? then
        var px := ClimbNextPrice(t.rule.side, working.value.price, lt.price, t.tick, MaxInt(1, settings.climbTicks));
        if px == 0.0 then lt.price else px
      else lt.price
    }

    /** The rungs wanted on one side. */
    function LadderTargets(t: Target): seq<LevelTarget>
      reads this`settings
    {
      Truncated(LadderLevels(t.rule.side, t.price, t.qty, t.tick, settings.ladderLevels, settings.ladderSpacing,
                             settings.ladderWeights), MaxOrders())
    }

    ghost predicate AllSendable(t: Target)
      reads this`settings
    {
      forall k :: 0 <= k < |LadderTargets(t)| ==>
        Sendable(t, sizing, LadderTargets(t)[k].price, LadderTargets(t)[k].qty)
    }

    /** A rung kept its working quote if it was to be left alone; otherwise that is gone and
        an order went out for the rung unless its price is out of the zone or it cannot
        be sized. */
    ghost predicate RungServed(before: Orders, after: Orders, t: Target, kept: seq<Quote>, next: seq<Quote>,
                               lt: LevelTarget, climb: bool, now: real)
      reads this`settings
    {
      var working := Find(kept, lt.level);
      if working.Some? && KeepsRung(t, working.value, lt, climb, settings, now) then working.value in next
      else (working.Some? ==> working.value !in next)
           && Handled(before, after, t, sizing, RungPrice(t, working, lt, climb), lt.qty, true)
    }

    ghost predicate RungsServed(before: Orders, after: Orders, t: Target, kept: seq<Quote>, next: seq<Quote>,
                                targets: seq<LevelTarget>, climb: bool, now: real)
      reads this`settings
    {
      forall k :: 0 <= k < |targets| ==> RungServed(before, after, t, kept, next, targets[k], climb, now)
    }

    function ClimbStep(tick: real): real
      reads this`settings
    {
      Times(tick, MaxInt(1, settings.climbTicks) as real)
    }

    function MaxOrders(): (n: int)
      reads this`settings
      ensures n >= 2
    {
      MaxInt(2, settings.maxOrders)
    }

    /** The second pass of _sync_ladder: rung by rung. */
    method SyncRungs(t: Target, given: seq<Quote>, kept: seq<Quote>, targets: seq<LevelTarget>, climb: bool, now: real,
                     ghost levels: seq<Quote>, ghost start: Orders)
      returns (next: seq<Quote>, outcome: Outcome)
      requires Ready(t.rule, given) && t.tick > 0.0 && !Crosses(t.rule.side, t.price, t.rule.touch)
      requires t.rule.placeBps == settings.placeBps && targets == LadderTargets(t)
      requires Rungs(t.rule.side, t.price, targets, MaxInt(1, settings.ladderLevels))
      requires Sound(start, om.orders, t.rule, levels, given, {}) && NoneWithdrawn(given, om.orders)
      requires Ids(given) <= Ids(levels) && (forall w :: w in kept ==> w in levels)
      requires forall w :: w in given <==> w in kept && Wanted(w.level, targets)
      requires climb ==> StalePrices(levels, t.rule.side, ClimbStep(t.tick)) <= t.rule.stale
      modifies om
      ensures Ready(t.rule, next) && Sound(start, om.orders, t.rule, levels, next, {})
      ensures Accepts(om.venue) && (Yields(om.venue, t.rule.side) || kept == []) ==> outcome.Done?
      ensures !outcome.CancelRaised? ==> NoneWithdrawn(next, om.orders)
      ensures outcome.Done? ==>
        && (forall w :: w in next ==> Wanted(w.level, targets) && (w in kept || w.id !in start))
        && (if outcome.changed then NewRung(next, targets, |targets|, start) else Ids(next) <= Ids(levels))
        && RungsServed(start, om.orders, t, kept, next, targets, climb, now)
      ensures Accepts(om.venue) && given == [] && kept == [] && AllSendable(t) ==> |next| == |targets|
    {
      hide Sound, Evolves, Ids, Crosses, Distinct, Wanted, StalePrices, Rungs, Find, Belong, ClimbStep, Untouched;
      hide RungServed, Handled, NoneWithdrawn, NewRung, Sendable, Accepts, Yields, KeepsRung, RungsServed, RungPrice;
      next := given;
      var changed := false;
      StartRungs(start, om.orders, t, kept, given, targets, climb, now);
      for i := 0 to |targets|
        invariant Ready(t.rule, next) && Sound(start, om.orders, t.rule, levels, next, {})
        invariant NoneWithdrawn(next, om.orders)
        invariant forall w :: w in next ==> Wanted(w.level, targets) && (w in kept || w.id !in start)
        invariant Untouched(kept, next, targets, i)
        invariant if changed then NewRung(next, targets, i, start) else Ids(next) <= Ids(levels)
        invariant RungsServed(start, om.orders, t, kept, next, targets[..i], climb, now)
        invariant Accepts(om.venue) && given == [] && kept == [] && AllSendable(t) ==> |next| == i
      {
        var lt := targets[i];
        var working := Find(kept, lt.level);
        RungStart(kept, next, targets, i);
        RungPriceFits(targets, i, t.rule, t.price, MaxInt(1, settings.ladderLevels));
        if climb && working.Some? {
          StaleOf(levels, working.value, t.rule.side, Times(t.tick, MaxInt(1, settings.climbTicks) as real));
          assert ClimbStep(t.tick) == Times(t.tick, MaxInt(1, settings.climbTicks) as real) by { ClimbStepIs(t.tick); }
        }
        ghost var before, was := om.orders, next;
        SoundEvolves(start, before, t.rule, levels, was, {});
        next, outcome := SyncRung(t, next, working, lt, climb, now);
        SoundJoin(start, before, om.orders, t.rule, levels, was, next);
        if !outcome.Done? {
          return;
        }
        SoundEvolves(before, om.orders, t.rule, was, next, {});
        LevelsDiffer(targets, i, t.rule.side, t.price, MaxInt(1, settings.ladderLevels));
        NewRungStays(was, next, targets, i, start, outcome.changed);
        changed := changed || outcome.changed;
        ServedNow(start, before, om.orders, t, kept, next, lt, climb, now);
        ServedSnoc(start, before, om.orders, t, kept, was, next, targets, i, climb, now);
        RungDone(kept, was, next, targets, i, t.rule.side, t.price, MaxInt(1, settings.ladderLevels));
      }
      assert targets[..|targets|] == targets;
      outcome := Done(changed);
    }

    lemma ClimbStepIs(tick: real)
      ensures ClimbStep(tick) == Times(tick, MaxInt(1, settings.climbTicks) as real)
    {
    }

    lemma StartRungs(start: Orders, o: Orders, t: Target, kept: seq<Quote>, given: seq<Quote>,
                     targets: seq<LevelTarget>, climb: bool, now: real)
      requires forall w :: w in given <==> w in kept && Wanted(w.level, targets)
      ensures Untouched(kept, given, targets, 0) && RungsServed(start, o, t, kept, given, targets[..0], climb, now)
    {
      hide Wanted, RungServed;
    }

    /** _sync_ladder: LADDER and CLIMB_MULTI. */
    method SyncLadder(t: Target, levels: seq<Quote>, climb: bool) returns (next: seq<Quote>, outcome: Outcome)
      requires Ready(t.rule, levels) && t.tick > 0.0 && !Crosses(t.rule.side, t.price, t.rule.touch)
      requires t.rule.placeBps == settings.placeBps
      requires climb ==> StalePrices(levels, t.rule.side, ClimbStep(t.tick)) <= t.rule.stale
      modifies om
      ensures Ready(t.rule, next) && Sound(old(om.orders), om.orders, t.rule, levels, next, {})
      ensures Accepts(om.venue) && (Yields(om.venue, t.rule.side) || levels == []) ==> outcome.Done?
      ensures !outcome.CancelRaised? ==> NoneWithdrawn(next, om.orders)
      ensures outcome.Done? ==> |next| * 2 <= MaxOrders() && SortedByLevel(next)
      ensures outcome.Done? ==> Reported(outcome.changed, levels, next)
      ensures outcome.Done? ==>
        RungsServed(old(om.orders), om.orders, t, Pruned(levels, old(om.orders)), next, LadderTargets(t), climb,
                    wall(old(om.clock)))
      ensures outcome.Done? ==> Shallow(levels, next, old(om.orders), t.rule.side, t.rule.touch, settings.cancelBps)
      ensures Accepts(om.venue) && levels == [] && AllSendable(t) ==> |next| == |LadderTargets(t)|
    {
      hide Sound, Evolves, Ids, Crosses, Distinct, Wanted, Pruned, LadderLevels, StalePrices, Rungs, Find, Belong;
      hide SortedByLevel, RungServed, Handled, NoneWithdrawn, NewRung, Sendable, Accepts, Yields, KeepsRung, Shallow;
      hide RungsServed;
      ghost var start := om.orders;
      var changed: bool, ok: bool;
      next := Pruned(levels, om.orders);
      var kept := next;
      SoundPrune(om.orders, t.rule, levels);
      SoundEvolves(start, start, t.rule, levels, next, {});
      PrunedKeeps(levels, om.orders);
      PrunedNotWithdrawn(levels, om.orders);
      var now := wall(om.clock);
      NothingPruned(start);
      EntriesKnown(levels, start, t.rule);
      var all := LadderLevelTargets(t.rule.side, t.price, t.qty, t.tick, settings.ladderLevels, settings.ladderSpacing,
                                    settings.ladderWeights);
      LadderStepsAway(t.rule.side, t.price, t.qty, t.tick, settings.ladderLevels, settings.ladderSpacing,
                      settings.ladderWeights);
      var targets := Truncated(all, MaxOrders());
      TruncationFits(all, MaxOrders(), t.rule.side, t.price, MaxInt(1, settings.ladderLevels));
      next, ok, changed := DropUnwanted(t.rule, next, targets);
      SoundJoin(start, start, om.orders, t.rule, levels, kept, next);
      if !ok {
        return next, CancelRaised;
      }
      ghost var dropped := changed;
      ReportNone(start, om.orders, t.rule, levels, next, {});
      if kept == [] {
        assert next == [];
      }
      next, outcome := SyncRungs(t, next, kept, targets, climb, now, levels, start);
      if !outcome.Done? {
        return;
      }
      changed := changed || outcome.changed;
      LadderEnds(start, om.orders, t, levels, kept, next, targets, dropped, changed, climb, now);
      next := Sorted(next);
      outcome := Done(changed);
    }

    /** What sorting the served rungs leaves. */
    lemma LadderEnds(start: Orders, end: Orders, t: Target, levels: seq<Quote>, kept: seq<Quote>, was: seq<Quote>,
                     targets: seq<LevelTarget>, dropped: bool, changed: bool, climb: bool, now: real)
      requires TidySide(was, end, t.rule.symbol, t.rule.side) && Sound(start, end, t.rule, levels, was, {})
      requires NoneWithdrawn(was, end) && Distinct(levels) && Ids(levels) <= start.Keys
      requires kept == Pruned(levels, start)
      requires forall w :: w in was ==> Wanted(w.level, targets) && (w in kept || w.id !in start)
      requires if changed then dropped || NewRung(was, targets, |targets|, start) else Ids(was) <= Ids(levels)
      requires dropped ==> exists w :: w in kept && !Wanted(w.level, targets)
      requires RungsServed(start, end, t, kept, was, targets, climb, now)
      ensures var next := Sorted(was);
        && TidySide(next, end, t.rule.symbol, t.rule.side) && Sound(start, end, t.rule, levels, next, {})
        && NoneWithdrawn(next, end) && SortedByLevel(next) && |next| == |was| <= |targets|
        && Reported(changed, levels, next)
        && RungsServed(start, end, t, kept, next, targets, climb, now)
        && Shallow(levels, next, start, t.rule.side, t.rule.touch, settings.cancelBps)
    {
      hide Sound, Evolves, Ids, Distinct, Wanted, Belong, SortedByLevel, RungServed, NoneWithdrawn, NewRung, Shallow;
      hide Sorted;
      var next := Sorted(was);
      PrunedKeeps(levels, start);
      hide Pruned;
      WantedCount(was, targets);
      SortKeeps(was);
      SortDistinct(was);
      SoundSort(end, t.rule, was);
      SoundEvolves(end, end, t.rule, was, next, {});
      SoundJoin(start, end, end, t.rule, levels, was, next);
      SortMembers(was);
      SameIdsNotWithdrawn(was, next, end);
      if changed {
        LadderChanged(levels, kept, was, targets, start, dropped);
      }
      SelfEvolves(end);
      forall k | 0 <= k < |targets| ensures RungServed(start, end, t, kept, next, targets[k], climb, now) {
        ServedStays(start, end, end, t, kept, was, next, targets[k], climb, now);
      }
      LadderIsShallow(start, end, t, levels, next, targets, climb, now);
    }

    lemma ServedSnoc(a: Orders, b: Orders, c: Orders, t: Target, kept: seq<Quote>, was: seq<Quote>, next: seq<Quote>,
                     targets: seq<LevelTarget>, i: nat, climb: bool, now: real)
      requires i < |targets| && RungsServed(a, b, t, kept, was, targets[..i], climb, now) && Evolves(b, c)
      requires forall k :: 0 <= k < i ==> targets[k].level != targets[i].level
      requires forall w: Quote :: w.level != targets[i].level ==> (w in was <==> w in next)
      requires RungServed(a, c, t, kept, next, targets[i], climb, now)
      ensures RungsServed(a, c, t, kept, next, targets[..i + 1], climb, now)
    {
      hide RungServed, Evolves;
      var upTo := targets[..i + 1];
      forall k | 0 <= k < |upTo| ensures RungServed(a, c, t, kept, next, upTo[k], climb, now) {
        if k < i {
          assert targets[..i][k] == upTo[k];
          ServedStays(a, b, c, t, kept, was, next, targets[k], climb, now);
        }
      }
    }

    lemma ServedStays(a: Orders, b: Orders, c: Orders, t: Target, kept: seq<Quote>, was: seq<Quote>, next: seq<Quote>,
                      lt: LevelTarget, climb: bool, now: real)
      requires RungServed(a, b, t, kept, was, lt, climb, now) && Evolves(b, c)
      requires forall w: Quote :: w.level == lt.level ==> (w in was <==> w in next)
      ensures RungServed(a, c, t, kept, next, lt, climb, now)
    {
      hide KeepsRung;
      var working := Find(kept, lt.level);
      if !(working.Some? && KeepsRung(t, working.value, lt, climb, settings, now)) {
        HandledStays(a, b, c, t, sizing, RungPrice(t, working, lt, climb), lt.qty, true);
      }
      hide Handled, Evolves;
    }

    lemma ServedNow(a: Orders, b: Orders, c: Orders, t: Target, kept: seq<Quote>, next: seq<Quote>,
                    lt: LevelTarget, climb: bool, now: real)
      requires a.Keys <= b.Keys
      requires var working := Find(kept, lt.level);
        if working.Some? && KeepsRung(t, working.value, lt, climb, settings, now) then working.value in next
        else (working.Some? ==> working.value !in next)
             && Handled(b, c, t, sizing, RungPrice(t, working, lt, climb), lt.qty, true)
      ensures RungServed(a, c, t, kept, next, lt, climb, now)
    {
      hide KeepsRung;
      var working := Find(kept, lt.level);
      if !(working.Some? && KeepsRung(t, working.value, lt, climb, settings, now)) {
        HandledSince(a, b, c, t, sizing, RungPrice(t, working, lt, climb), lt.qty, true);
      }
      hide Handled;
    }

    lemma LadderIsShallow(start: Orders, end: Orders, t: Target, levels: seq<Quote>, next: seq<Quote>,
                          targets: seq<LevelTarget>, climb: bool, now: real)
      requires Distinct(levels)
      requires forall x :: x in next ==>
        Wanted(x.level, targets) && (x in Pruned(levels, start) || x.id !in start)
      requires RungsServed(start, end, t, Pruned(levels, start), next, targets, climb, now)
      ensures Shallow(levels, next, start, t.rule.side, t.rule.touch, settings.cancelBps)
    {
      PrunedMembers(levels, start);
      hide Pruned, Handled, Deep, Distinct, CancelReason, ClimbNextPrice, ChaseShouldReplace;
      forall x | x in next && x.id in start
        ensures !Deep(t.rule.side, x.price, t.rule.touch, settings.cancelBps) && x in levels
      {
        var k :| 0 <= k < |targets| && targets[k].level == x.level;
        assert RungServed(start, end, t, Pruned(levels, start), next, targets[k], climb, now);
        var working := Find(Pruned(levels, start), x.level);
        SameLevel(Pruned(levels, start), x, working.value);
        RestsIsShallow(t, x, targets[k].price, now);
      }
    }

    lemma RestsIsShallow(t: Target, w: Quote, target: real, now: real)
      requires Rests(t, w, target, settings, now)
      ensures !Deep(t.rule.side, w.price, t.rule.touch, settings.cancelBps)
    {
    }

    /** _sync_take: the resting side is cancelled, then an immediate-or-cancel order
        goes out that may cross. */
    method SyncTake(t: Target, levels: seq<Quote>) returns (next: seq<Quote>, outcome: Outcome)
      requires Ready(t.rule, levels)
      modifies om
      ensures Ready(t.rule, next) && Sound(old(om.orders), om.orders, t.rule, levels, next, {})
      ensures Accepts(om.venue) && (Yields(om.venue, t.rule.side) || levels == []) ==> outcome.Done?
      ensures !outcome.CancelRaised? ==> NoneWithdrawn(next, om.orders)
      ensures outcome.Done? ==> |next| <= 1 && Reported(outcome.changed, levels, next)
      ensures outcome.Done? ==> Handled(old(om.orders), om.orders, t, sizing, t.price, t.qty, false)
      ensures outcome.Done? ==>
        forall id :: id in Ids(levels) && id in old(om.orders) && id in om.orders ==> !om.orders[id].live
    {
      hide Sound, Evolves, Ids, PriceFits, Handled, Distinct, Belong;
      ghost var start := om.orders;
      EntriesKnown(levels, start, t.rule);
      var ok: bool;
      next, ok := CancelSide(t.rule, levels);
      if !ok {
        return next, CancelRaised;
      }
      NoneDistinct();
      ghost var before := om.orders;
      SoundEvolves(start, before, t.rule, levels, next, {});
      var placed, raised := PlaceLevel(t, t.price, t.qty, 0, false, next);
      SoundEvolves(before, om.orders, t.rule, [], Plus([], placed), {});
      EndedStays(before, om.orders, levels);
      next := Plus(next, placed);
      SoundJoin(start, before, om.orders, t.rule, levels, [], next);
      if placed.Some? {
        ReportPlaced(levels, next, start, placed.value);
      }
      if !raised {
        HandledSince(start, before, om.orders, t, sizing, t.price, t.qty, false);
      }
      outcome := if raised then RejectRaised else Done(placed.Some?);
    }

    /** The placement rule of one side: only CLIMB_MULTI may return to a stale price. */
    function RuleFor(intent: Intent, side: Side, levels: seq<Quote>, tick: real): (r: Rule)
      reads this`settings
      ensures r.symbol == intent.symbol && r.side == side && r.quiet == om.venue.settle.None?
    {
      var climbs := ModeFor(intent, settings, side).ClimbMulti?;
      Rule(intent.symbol, side, intent.touch, settings.placeBps,
           if climbs then StalePrices(levels, side, ClimbStep(tick)) else {}, om.venue.settle.None?)
    }

    /** What one side is synced towards. */
    function TargetFor(intent: Intent, side: Side, levels: seq<Quote>, price: real, qty: real, tick: real): Target
      reads this`settings
    {
      Target(RuleFor(intent, side, levels, tick), price, qty,
             if side.Buy? then intent.reduceBid else intent.reduceAsk, tick)
    }

    /** Each side is sized by its own reduce-only flag. */
    lemma WhichReduceOnly(intent: Intent, reduce: bool, levels: seq<Quote>, price: real, qty: real, tick: real)
      ensures TargetFor(intent.(reduceBid := reduce), Buy, levels, price, qty, tick).reduceOnly == reduce
      ensures TargetFor(intent.(reduceAsk := reduce), Sell, levels, price, qty, tick).reduceOnly == reduce
    {
    }

    /** From an empty side: the mode's order or orders went out at their prices, unless
        out of the zone or not sizable. */
    ghost predicate Quoted(before: Orders, after: Orders, intent: Intent, side: Side, levels: seq<Quote>,
                           price: real, qty: real, tick: real)
      reads this`settings
    {
      var t := TargetFor(intent, side, levels, price, qty, tick);
      match ModeFor(intent, settings, side)
      case Take => Handled(before, after, t, sizing, TakePrice(intent, side, price), qty, false)
      case Ladder => RungsHandled(before, after, t)
      case ClimbMulti => RungsHandled(before, after, t)
      case _ => Handled(before, after, t, sizing, price, qty, true)
    }

    ghost predicate RungsHandled(before: Orders, after: Orders, t: Target)
      reads this`settings
    {
      forall k :: 0 <= k < |LadderTargets(t)| ==>
        Handled(before, after, t, sizing, LadderTargets(t)[k].price, LadderTargets(t)[k].qty, true)
    }

    lemma ServedFromNothing(before: Orders, after: Orders, t: Target, next: seq<Quote>, climb: bool, now: real)
      requires RungsServed(before, after, t, [], next, LadderTargets(t), climb, now)
      ensures RungsHandled(before, after, t)
    {
      hide Handled, LadderTargets, ClimbNextPrice;
      forall k | 0 <= k < |LadderTargets(t)|
        ensures Handled(before, after, t, sizing, LadderTargets(t)[k].price, LadderTargets(t)[k].qty, true)
      {
        assert RungServed(before, after, t, [], next, LadderTargets(t)[k], climb, now);
        assert Find([], LadderTargets(t)[k].level).None?;
      }
    }

    lemma QuotedStays(a: Orders, b: Orders, c: Orders, intent: Intent, side: Side, levels: seq<Quote>,
                      price: real, qty: real, tick: real)
      requires Quoted(a, b, intent, side, levels, price, qty, tick) && Evolves(b, c)
      ensures Quoted(a, c, intent, side, levels, price, qty, tick)
    {
      hide Handled, Evolves, LadderTargets, RuleFor, ModeFor;
      var t := TargetFor(intent, side, levels, price, qty, tick);
      if ModeFor(intent, settings, side).Take? {
        HandledStays(a, b, c, t, sizing, TakePrice(intent, side, price), qty, false);
      } else if ModeFor(intent, settings, side).Ladder? || ModeFor(intent, settings, side).ClimbMulti? {
        forall k | 0 <= k < |LadderTargets(t)|
          ensures Handled(a, c, t, sizing, LadderTargets(t)[k].price, LadderTargets(t)[k].qty, true)
        {
          HandledStays(a, b, c, t, sizing, LadderTargets(t)[k].price, LadderTargets(t)[k].qty, true);
        }
      } else {
        HandledStays(a, b, c, t, sizing, price, qty, true);
      }
    }

    lemma QuotedSince(a: Orders, b: Orders, c: Orders, intent: Intent, side: Side, levels: seq<Quote>,
                      price: real, qty: real, tick: real)
      requires Quoted(b, c, intent, side, levels, price, qty, tick) && a.Keys <= b.Keys
      ensures Quoted(a, c, intent, side, levels, price, qty, tick)
    {
      hide Handled, LadderTargets, RuleFor, ModeFor;
      var t := TargetFor(intent, side, levels, price, qty, tick);
      if ModeFor(intent, settings, side).Take? {
        HandledSince(a, b, c, t, sizing, TakePrice(intent, side, price), qty, false);
      } else if ModeFor(intent, settings, side).Ladder? || ModeFor(intent, settings, side).ClimbMulti? {
        forall k | 0 <= k < |LadderTargets(t)|
          ensures Handled(a, c, t, sizing, LadderTargets(t)[k].price, LadderTargets(t)[k].qty, true)
        {
          HandledSince(a, b, c, t, sizing, LadderTargets(t)[k].price, LadderTargets(t)[k].qty, true);
        }
      } else {
        HandledSince(a, b, c, t, sizing, price, qty, true);
      }
    }

    /** From an empty side an accepting venue gets one order for every rung. */
    ghost predicate FullLadder(t: Target, next: seq<Quote>)
      reads this`settings
    {
      AllSendable(t) ==> |next| == |LadderTargets(t)|
    }

    /** Nothing is to be done on this side: it is empty, and nothing is wanted or can be
        sent, or its one quote is to be left alone in MAKE, CHASE or CLIMB. */
    ghost predicate SideSettled(intent: Intent, side: Side, price: Option<real>, qty: real, tick: real,
                                levels: seq<Quote>, o: Orders, now: real)
      reads this`settings
    {
      if price.None? || qty <= 0.0 then levels == []
      else
        var mode, t := ModeFor(intent, settings, side), TargetFor(intent, side, levels, price.value, qty, tick);
        && (mode.Make? || mode.Chase? || mode.Climb?)
        && if levels == [] then !Sendable(t, sizing, price.value, qty)
           else |levels| == 1 && levels[0].id in o && o[levels[0].id].live && QuoteSettled(t, levels[0], mode, o, now)
    }

    ghost predicate QuoteSettled(t: Target, w: Quote, mode: Mode, o: Orders, now: real)
      reads this`settings
    {
      if mode.Climb? then KeepsClimbing(t, w, settings, now)
      else KeepsSingle(t, w, Remaining(o, w), mode.Chase?, settings, now)
    }

    lemma SettledIsWorking(levels: seq<Quote>, o: Orders)
      ensures levels == [] || (|levels| == 1 && levels[0].id in o && o[levels[0].id].live) ==>
        Pruned(levels, o) == levels
    {
      if levels == [] || (|levels| == 1 && levels[0].id in o && o[levels[0].id].live) {
        PrunedSame(levels, o);
      }
    }

    /** What syncing one side comes to: the mirror, what may be lost, and, without an
        exception, how many orders are left and which were sent. */
    ghost predicate SideSynced(before: Orders, after: Orders, intent: Intent, side: Side, price: Option<real>,
                               qty: real, tick: real, levels: seq<Quote>, next: seq<Quote>, outcome: Outcome,
                               lost: set<OrderId>)
      reads this`settings
    {
      var kept := Pruned(levels, before);
      && Sound(before, after, RuleFor(intent, side, levels, tick), levels, next, lost)
      && LosesOnly(intent, settings, side, price, qty, kept, next, outcome, lost)
      && (Holds(om.venue, side) && Surplus(intent, settings, side, price, qty, kept) ==>
            lost != {} && |next| == |kept| - 1 && after == before)
      && (Accepts(om.venue) && (Yields(om.venue, side) || levels == []) ==> outcome.Done?)
      && (Accepts(om.venue) && levels == [] && price.Some? && qty > 0.0 && ModeFor(intent, settings, side).Ladder? ==>
            FullLadder(TargetFor(intent, side, levels, price.value, qty, tick), next))
      && (!outcome.CancelRaised? ==> NoneWithdrawn(next, after) && (om.venue.settle.None? ==> AllLive(next, after)))
      && (outcome.Done? ==> KeepZone(levels, after, side, intent.touch, settings.cancelBps))
      && (outcome.Done? && Single(intent, settings, side, price, qty) ==>
            SingleDone(TargetFor(intent, side, levels, price.value, qty, tick), next))
      && (outcome.Done? ==>
            && |next| * 2 <= MaxOrders() && Reported(outcome.changed, levels, next)
            && if price.None? || qty <= 0.0 then next == []
               else kept == [] ==> Quoted(before, after, intent, side, levels, price.value, qty, tick))
    }

    /** _sync_side, on a price that the clamp in _refresh_symbol has seen. */
    method SyncSide(intent: Intent, side: Side, price: Option<real>, qty: real, tick: real, levels: seq<Quote>)
      returns (next: seq<Quote>, outcome: Outcome, ghost lost: set<OrderId>)
      requires Ready(RuleFor(intent, side, levels, tick), levels) && tick > 0.0
      requires price.Some? ==> !Crosses(side, price.value, intent.touch)
      modifies om
      ensures Ready(RuleFor(intent, side, levels, tick), next)
      ensures SideSynced(old(om.orders), om.orders, intent, side, price, qty, tick, levels, next, outcome, lost)
      ensures SideSettled(intent, side, price, qty, tick, levels, old(om.orders), wall(old(om.clock))) ==>
        outcome == Done(false) && lost == {} && om.orders == old(om.orders) && om.clock == old(om.clock)
    {
      hide Sound, Evolves, Ids, StalePrices, Distinct, Pruned, Belong, NoneWithdrawn, Accepts, Yields, Holds, Quoted;
      hide AllLive;
      if price.None? || qty <= 0.0 {
        var ok: bool;
        next, ok := CancelSide(RuleFor(intent, side, levels, tick), levels);
        NoneWithdrawnNone(om.orders);
        NoneLiveNone(om.orders);
        EmptyReported(levels);
        if ok {
          AllEndedKeepZone(levels, om.orders, side, intent.touch, settings.cancelBps);
        }
        return next, if ok then Done(levels != []) else CancelRaised, {};
      }
      var px := price.value;
      ClampNeverCrosses(if side.Buy? then price else None, if side.Sell? then price else None, intent.touch, tick);
      var (b, a) := Clamp(if side.Buy? then price else None, if side.Sell? then price else None, intent.touch, tick);
      if intent.touch.bid.Some? && intent.touch.bid.value != 0.0
        && intent.touch.ask.Some? && intent.touch.ask.value != 0.0 {
        px := if side.Buy? then b.value else a.value;
      }
      assert px == price.value;
      hide SideSynced;
      next, outcome, lost := SyncMode(intent, side, px, qty, tick, levels);
    }

    /** The modes with one quote a side. */
    method SyncOne(intent: Intent, side: Side, px: real, qty: real, tick: real, levels: seq<Quote>)
      returns (next: seq<Quote>, outcome: Outcome, ghost lost: set<OrderId>)
      requires Ready(RuleFor(intent, side, levels, tick), levels) && tick > 0.0 && qty > 0.0
      requires !Crosses(side, px, intent.touch)
      requires var mode := ModeFor(intent, settings, side); mode.Make? || mode.Chase? || mode.Climb?
      modifies om
      ensures Ready(RuleFor(intent, side, levels, tick), next)
      ensures SideSynced(old(om.orders), om.orders, intent, side, Some(px), qty, tick, levels, next, outcome, lost)
      ensures SideSettled(intent, side, Some(px), qty, tick, levels, old(om.orders), wall(old(om.clock))) ==>
        outcome == Done(false) && lost == {} && om.orders == old(om.orders) && om.clock == old(om.clock)
    {
      hide Shallow, KeepZone, SingleDone, KeepsSingle, KeepsClimbing, Sendable, RungsServed, Remaining, Ended;
      hide Sound, Evolves, Ids, StalePrices, Distinct, Handled, RungServed, RungsHandled, Pruned, ClimbNextPrice;
      hide Belong, NoneWithdrawn, Accepts, Yields, Holds, Reported, SortedByLevel, Crosses, AllLive;
      lost := {};
      var mode := ModeFor(intent, settings, side);
      ghost var start := om.orders;
      var t := TargetFor(intent, side, levels, px, qty, tick);
      SettledIsWorking(levels, start);
      if mode.Climb? {
        next, outcome := SyncClimb(t, levels);
      } else {
        next, outcome, lost := SyncSingle(t, levels, mode.Chase?);
      }
      if outcome.Done? {
        ShallowKeeps(levels, next, start, om.orders, t.rule, settings.cancelBps);
      }
      QuietLive(t.rule, next);
    }

    /** The choice of mode at the end of _sync_side. */
    method SyncMode(intent: Intent, side: Side, px: real, qty: real, tick: real, levels: seq<Quote>)
      returns (next: seq<Quote>, outcome: Outcome, ghost lost: set<OrderId>)
      requires Ready(RuleFor(intent, side, levels, tick), levels) && tick > 0.0 && qty > 0.0
      requires !Crosses(side, px, intent.touch)
      modifies om
      ensures Ready(RuleFor(intent, side, levels, tick), next)
      ensures SideSynced(old(om.orders), om.orders, intent, side, Some(px), qty, tick, levels, next, outcome, lost)
      ensures SideSettled(intent, side, Some(px), qty, tick, levels, old(om.orders), wall(old(om.clock))) ==>
        outcome == Done(false) && lost == {} && om.orders == old(om.orders) && om.clock == old(om.clock)
    {
      hide Shallow, KeepZone, SingleDone, KeepsSingle, KeepsClimbing, Sendable, RungsServed, Remaining, Ended;
      hide Sound, Evolves, Ids, StalePrices, Distinct, Handled, RungServed, RungsHandled, Pruned, ClimbNextPrice;
      hide Belong, NoneWithdrawn, Accepts, Yields, Holds, Reported, SortedByLevel, Crosses, AllLive;
      lost := {};
      var mode := ModeFor(intent, settings, side);
      if !mode.Take? && !mode.Ladder? && !mode.ClimbMulti? {
        hide SideSynced, SideSettled;
        next, outcome, lost := SyncOne(intent, side, px, qty, tick, levels);
        return;
      }
      ghost var start := om.orders;
      var t := TargetFor(intent, side, levels, px, qty, tick);
      if mode.Take? {
        var cross := TakePrice(intent, side, px);
        next, outcome := SyncTake(t.(price := cross), levels);
        if outcome.Done? {
          TakenKeepZone(start, levels, om.orders, t.rule);
        }
        SamePlacement(start, om.orders, t, t.(price := cross), sizing, cross, qty, false);
      } else {
        next, outcome := SyncLadder(t, levels, mode.ClimbMulti?);
        if outcome.Done? && Pruned(levels, start) == [] {
          ServedFromNothing(start, om.orders, t, next, mode.ClimbMulti?, wall(old(om.clock)));
        }
        if outcome.Done? {
          ShallowKeeps(levels, next, start, om.orders, t.rule, settings.cancelBps);
        }
      }
      QuietLive(t.rule, next);
    }

    lemma TakenKeepZone(start: Orders, levels: seq<Quote>, o: Orders, rule: Rule)
      requires Belong(levels, start, rule.symbol, rule.side)
      requires forall id :: id in Ids(levels) && id in start && id in o ==> !o[id].live
      ensures KeepZone(levels, o, rule.side, rule.touch, settings.cancelBps)
    {
      EntriesKnown(levels, start, rule);
      hide Ids, KeepZone;
      AllEndedKeepZone(levels, o, rule.side, rule.touch, settings.cancelBps);
    }

    /** At a quiet venue what was not withdrawn is live. */
    lemma QuietLive(rule: Rule, levels: seq<Quote>)
      requires Ready(rule, levels)
      ensures om.venue.settle.None? && NoneWithdrawn(levels, om.orders) ==> AllLive(levels, om.orders)
    {
      hide Distinct, Belong, NoneWithdrawn, AllLive;
      if om.venue.settle.None? && NoneWithdrawn(levels, om.orders) {
        StandingIsLive(levels, om.orders, rule.symbol, rule.side);
      }
    }

    /** The rule one side is refreshed under: its stale prices are those of the entries
        that survive pruning. */
    function SideRule(intent: Intent, side: Side, was: Session): Rule
      reads this`settings
    {
      RuleFor(intent, side, LevelsOf(was, side), TickOf(intent))
    }

    /** prune_symbol */
    method PruneSymbol(symbol: Symbol)
      requires Valid()
      modifies this`sessions
      ensures Valid() && Orphans() == old(Orphans())
      ensures symbol !in old(sessions) ==> sessions == old(sessions)
      ensures symbol in old(sessions) ==>
        sessions == old(sessions)[symbol := PrunedSession(old(sessions)[symbol], om.orders)]
      ensures old(AllQuoted()) ==> AllQuoted()
    {
      if symbol in sessions {
        PruneTidy(sessions, om.orders, symbol);
        hide Tidy, OrphansOf, SessionsLive;
        if AllQuoted() {
          PruneLive(sessions, om.orders, symbol);
        }
        sessions := sessions[symbol := PrunedSession(sessions[symbol], om.orders)];
      }
    }

    /** A side without a price or size ends empty; a side that starts empty is quoted. */
    ghost predicate SideDone(before: Orders, after: Orders, intent: Intent, side: Side, was: seq<Quote>,
                             now: seq<Quote>)
      reads this`settings
    {
      SideDoneAt(before, after, intent, side, was, now, PriceOf(intent, side), QtyOf(intent, side), TickOf(intent))
    }

    ghost predicate SideDoneAt(before: Orders, after: Orders, intent: Intent, side: Side, was: seq<Quote>,
                               now: seq<Quote>, price: Option<real>, qty: real, tick: real)
      reads this`settings
    {
      if price.None? || qty <= 0.0 then now == []
      else was == [] ==> Quoted(before, after, intent, side, was, price.value, qty, tick)
    }

    lemma BothDone(start: Orders, middle: Orders, end: Orders, intent: Intent, was: Session, now: Session)
      requires SideDone(start, middle, intent, Buy, was.bids, now.bids) && Evolves(middle, end)
      requires SideDone(middle, end, intent, Sell, was.asks, now.asks) && start.Keys <= middle.Keys
      ensures SideDone(start, end, intent, Buy, was.bids, now.bids)
      ensures SideDone(start, end, intent, Sell, was.asks, now.asks)
    {
      hide Quoted, Evolves, TickOf, PriceOf;
      var tick, bid, ask := TickOf(intent), PriceOf(intent, Buy), PriceOf(intent, Sell);
      if bid.Some? && intent.bidQty > 0.0 && was.bids == [] {
        QuotedStays(start, middle, end, intent, Buy, [], bid.value, intent.bidQty, tick);
      }
      if ask.Some? && intent.askQty > 0.0 && was.asks == [] {
        QuotedSince(start, middle, end, intent, Sell, [], ask.value, intent.askQty, tick);
      }
    }

    /** _sync_side on the session's own list. */
    method SyncSession(intent: Intent, side: Side, price: Option<real>, qty: real, tick: real)
      returns (outcome: Outcome, ghost lost: set<OrderId>)
      requires Valid() && intent.symbol in sessions && tick > 0.0
      requires price.Some? ==> !Crosses(side, price.value, intent.touch)
      modifies this`sessions, om
      ensures Valid() && intent.symbol in sessions
      ensures Orphans() == LiveAmong(old(Orphans()) + lost, om.orders)
      ensures var s := old(sessions)[intent.symbol];
        var was, next := LevelsOf(s, side), LevelsOf(sessions[intent.symbol], side);
        && sessions == old(sessions)[intent.symbol := WithLevels(s, side, next)]
        && SideSynced(old(om.orders), om.orders, intent, side, price, qty, tick, was, next, outcome, lost)
      ensures SideSettled(intent, side, price, qty, tick, LevelsOf(old(sessions)[intent.symbol], side), old(om.orders),
                          wall(old(om.clock))) ==>
        outcome == Done(false) && lost == {} && om.orders == old(om.orders) && om.clock == old(om.clock)
    {
      hide Sound, Distinct, Belong, Crosses, RuleFor, Quoted, Pruned, Surplus, Reported, NoneWithdrawn, Holds;
      hide Accepts, Yields;
      var s := sessions[intent.symbol];
      ghost var start := om.orders;
      var next: seq<Quote>;
      next, outcome, lost := SyncSide(intent, side, price, qty, tick, LevelsOf(s, side));
      ghost var rule := RuleFor(intent, side, LevelsOf(s, side), tick);
      LostWithin(LevelsOf(s, side), start, intent, settings, side, price, qty, next, outcome, lost);
      MirrorStep(sessions, start, om.orders, rule, next, lost);
      SoundEvolves(start, om.orders, rule, LevelsOf(s, side), next, lost);
      TidyMoves(sessions, start, om.orders);
      StoreTidy(sessions, om.orders, intent.symbol, side, next);
      sessions := sessions[intent.symbol := WithLevels(s, side, next)];
    }

    /** What a refresh comes to, besides what it may lose: the session holds only orders
        that were live at the start or are new, none of them cancelled by us or refused
        unless a cancel raised; every new post-only order lies in the place zone and, outside
        CLIMB_MULTI, does not cross; nothing but the venue moves the orders of other
        symbols; and without an exception both sides are within the order limit and
        were quoted. */
    ghost predicate Refreshed(before: Orders, after: Orders, intent: Intent, was: Session, now: Session,
                              outcome: Outcome)
      reads this`settings
    {
      && FreshEntries(now, before)
      && (!outcome.CancelRaised? ==> NoneWithdrawn(now.bids, after) && NoneWithdrawn(now.asks, after))
      && NewOrdersFit(before, after, SideRule(intent, Buy, was), SideRule(intent, Sell, was))
      && OnlyMoved(before, after, {intent.symbol})
      && (outcome.Done? ==>
            && Fits(now, MaxOrders()) && SessionReported(outcome.changed, was, now)
            && SideDone(before, after, intent, Buy, was.bids, now.bids)
            && SideDone(before, after, intent, Sell, was.asks, now.asks))
    }

    ghost predicate SyncedFor(before: Orders, after: Orders, intent: Intent, side: Side, was: seq<Quote>,
                              now: seq<Quote>, outcome: Outcome, lost: set<OrderId>)
      reads this`settings
    {
      SideSynced(before, after, intent, side, PriceOf(intent, side), QtyOf(intent, side), TickOf(intent), was, now,
                 outcome, lost)
    }

    /** A ladder on a side that starts empty. */
    ghost predicate LadderFull(intent: Intent, side: Side, was: seq<Quote>, now: seq<Quote>)
      reads this`settings
    {
      var price, qty := PriceOf(intent, side), QtyOf(intent, side);
      was == [] && price.Some? && qty > 0.0 && ModeFor(intent, settings, side).Ladder? ==>
        FullLadder(TargetFor(intent, side, was, price.value, qty, TickOf(intent)), now)
    }

    lemma LadderSynced(before: Orders, after: Orders, intent: Intent, side: Side, was: seq<Quote>, now: seq<Quote>,
                       outcome: Outcome, lost: set<OrderId>)
      requires SyncedFor(before, after, intent, side, was, now, outcome, lost) && Accepts(om.venue)
      ensures LadderFull(intent, side, was, now)
    {
      hide Sound, LosesOnly, Surplus, NoneWithdrawn, AllLive, Reported, Quoted, FullLadder, Accepts, Yields, Holds;
      hide PriceOf, TickOf, TargetFor, ModeFor, Pruned;
    }

    /** No quote outside the keep zone is left working, and MAKE and CHASE leave what they
        should. */
    ghost predicate InZones(after: Orders, intent: Intent, side: Side, was: seq<Quote>, now: seq<Quote>)
      reads this`settings
    {
      var price, qty := PriceOf(intent, side), QtyOf(intent, side);
      && KeepZone(was, after, side, intent.touch, settings.cancelBps)
      && (Single(intent, settings, side, price, qty) ==>
            SingleDone(TargetFor(intent, side, was, price.value, qty, TickOf(intent)), now))
    }

    lemma InZonesLater(middle: Orders, end: Orders, intent: Intent, side: Side, was: seq<Quote>, now: seq<Quote>)
      requires InZones(middle, intent, side, was, now) && Evolves(middle, end) && Ids(was) <= middle.Keys
      ensures InZones(end, intent, side, was, now)
    {
      KeepZoneStays(was, middle, end, side, intent.touch, settings.cancelBps);
      hide KeepZone, SingleDone, Evolves, Ids, TargetFor;
    }

    lemma SyncedInZones(before: Orders, after: Orders, intent: Intent, side: Side, was: seq<Quote>, now: seq<Quote>,
                        outcome: Outcome, lost: set<OrderId>)
      requires SyncedFor(before, after, intent, side, was, now, outcome, lost) && outcome.Done?
      ensures InZones(after, intent, side, was, now)
    {
      hide Sound, LosesOnly, Surplus, NoneWithdrawn, AllLive, Reported, Quoted, FullLadder, Accepts, Yields, Holds;
      hide PriceOf, TickOf, TargetFor, ModeFor, Pruned, KeepZone, SingleDone, Single;
    }

    ghost predicate Settled(intent: Intent, was: Session, o: Orders, now: real)
      reads this`settings
    {
      && SideSettled(intent, Buy, PriceOf(intent, Buy), QtyOf(intent, Buy), TickOf(intent), was.bids, o, now)
      && SideSettled(intent, Sell, PriceOf(intent, Sell), QtyOf(intent, Sell), TickOf(intent), was.asks, o, now)
    }

    /** The buying side raised. */
    lemma BidRaised(start: Orders, end: Orders, intent: Intent, was: Session, bids: seq<Quote>, outcome: Outcome,
                    lost: set<OrderId>)
      requires Belong(was.bids, start, intent.symbol, Buy) && Belong(was.asks, start, intent.symbol, Sell)
      requires FreshEntries(was, start) && NoneWithdrawn(was.asks, end)
      requires SyncedFor(start, end, intent, Buy, was.bids, bids, outcome, lost) && !outcome.Done?
      ensures Refreshed(start, end, intent, was, Session(bids, was.asks), outcome)
    {
      hide Sound, Belong, NoneWithdrawn, FreshEntries, OnlyMoved, NewOrdersFit, RuleFor, PriceOf, TickOf;
      var bidRule, askRule := SideRule(intent, Buy, was), SideRule(intent, Sell, was);
      SoundSame(end, askRule, was.asks);
      TwoSides(start, end, end, was, bids, was.asks, bidRule, askRule, lost, {});
      OneSymbol(start, end, end, was, bids, was.asks, bidRule, askRule, lost, {});
    }

    /** Both sides were synced, the selling side perhaps raising. */
    lemma BothSynced(start: Orders, middle: Orders, end: Orders, intent: Intent, was: Session, now: Session,
                     bidOutcome: Outcome, askOutcome: Outcome, lost: set<OrderId>)
      requires Belong(was.bids, start, intent.symbol, Buy) && Belong(was.asks, start, intent.symbol, Sell)
      requires Belong(now.bids, middle, intent.symbol, Buy) && Belong(was.asks, middle, intent.symbol, Sell)
      requires FreshEntries(was, start)
      requires SyncedFor(start, middle, intent, Buy, was.bids, now.bids, bidOutcome, {}) && bidOutcome.Done?
      requires SyncedFor(middle, end, intent, Sell, was.asks, now.asks, askOutcome, lost)
      ensures Refreshed(start, end, intent, was, now,
                        if askOutcome.Done? then Done(bidOutcome.changed || askOutcome.changed) else askOutcome)
    {
      hide Sound, Belong, NoneWithdrawn, FreshEntries, OnlyMoved, NewOrdersFit, RuleFor, PriceOf, TickOf, Quoted, Holds;
      hide Accepts, Yields, Surplus, Popped, Evolves, Ids, Pruned;
      var bidRule, askRule := SideRule(intent, Buy, was), SideRule(intent, Sell, was);
      TwoSides(start, middle, end, was, now.bids, now.asks, bidRule, askRule, {}, lost);
      OneSymbol(start, middle, end, was, now.bids, now.asks, bidRule, askRule, {}, lost);
      if !askOutcome.CancelRaised? {
        BidsNotWithdrawn(middle, end, askRule, was.asks, now.asks, now.bids, lost);
      }
      SoundEvolves(start, middle, bidRule, was.bids, now.bids, {});
      SoundEvolves(middle, end, askRule, was.asks, now.asks, lost);
      NothingPruned(start);
      NothingPruned(middle);
      if askOutcome.Done? {
        BothDone(start, middle, end, intent, was, now);
      }
    }

    /** The session is opened if need be, and pruned. */
    method StartRefresh(symbol: Symbol)
      requires Valid()
      modifies this`sessions
      ensures Valid() && Orphans() == old(Orphans())
      ensures sessions == old(sessions)[symbol := Working(old(sessions), om.orders, symbol)]
    {
      hide SessionsLive;
      hide Tidy, OrphansOf, Pruned;
      if symbol !in sessions {
        OpenSession(sessions, om.orders, symbol);
        sessions := sessions[symbol := Session([], [])];
      }
      PruneSymbol(symbol);
    }

    /** _refresh_symbol.  On every outcome the orphans are those there were and at most
        one entry of a MAKE or CHASE side with surplus entries, lost to a cancel that
        raised; and if the venue raises on every cancel, such a side does lose its
        last entry. */
    method RefreshSymbol(intent: Intent) returns (outcome: Outcome, ghost lost: set<OrderId>)
      requires Valid()
      modifies this`sessions, om
      ensures Valid()
      ensures intent.symbol in sessions && sessions == old(sessions)[intent.symbol := sessions[intent.symbol]]
      ensures Orphans() == LiveAmong(old(Orphans()) + lost, om.orders)
      ensures var was := Working(old(sessions), old(om.orders), intent.symbol);
        && Refreshed(old(om.orders), om.orders, intent, was, sessions[intent.symbol], outcome)
        && (lost != {} ==> outcome.CancelRaised? && LosesOne(intent, settings, was, lost))
        && (Holds(om.venue, Buy) && HasSurplus(intent, settings, Buy, was) ==>
              outcome.CancelRaised? && LosesLast(was.bids, lost) && lost <= Orphans())
        && (Accepts(om.venue) && Yields(om.venue, Buy) && Holds(om.venue, Sell)
            && HasSurplus(intent, settings, Sell, was) ==>
              outcome.CancelRaised? && LosesLast(was.asks, lost) && lost <= Orphans())
      ensures Accepts(om.venue) && Yields(om.venue, Buy) && Yields(om.venue, Sell) ==> outcome.Done?
      ensures var was, now := Working(old(sessions), old(om.orders), intent.symbol), sessions[intent.symbol];
        && (Accepts(om.venue) && was == Session([], []) ==> outcome.Done?)
        && (Accepts(om.venue) && outcome.Done? ==>
              LadderFull(intent, Buy, was.bids, now.bids) && LadderFull(intent, Sell, was.asks, now.asks))
        && (outcome.Done? ==>
              && InZones(om.orders, intent, Buy, was.bids, now.bids)
              && InZones(om.orders, intent, Sell, was.asks, now.asks))
        && (Settled(intent, was, old(om.orders), wall(old(om.clock))) ==>
              outcome == Done(false) && lost == {} && om.orders == old(om.orders) && om.clock == old(om.clock))
      ensures !outcome.CancelRaised? && om.venue.settle.None? ==> SessionLive(sessions[intent.symbol], om.orders)
      ensures outcome.Done? && Accepts(om.venue) && om.venue.settle.None? && MakesOnly(intent) && ZonesNest() ==>
        SettledWhileYoung(intent, Working(sessions, om.orders, intent.symbol), om.orders)
    {
      hide MakesOnly, ZonesNest, SettledWhileYoung;
      hide AllLive, SessionLive, LadderFull, LosesLast, InZones, SideSynced, SideSettled, FreshEntries, Refreshed;
      hide Evolves, Ids, Pruned, Distinct, Belong, Crosses, NoneWithdrawn, HasSurplus, LosesOne, OnlyWithdrawn;
      hide Tidy, OrphansOf, LiveAmong, Clamp, TickOf, Accepts, Yields, Holds, OnlyMoved, WithLevels;
      var symbol := intent.symbol;
      ghost var given, start := sessions, om.orders;
      assert NeverBoth(start);
      StartRefresh(symbol);
      ghost var was, orphans := Working(given, start, symbol), Orphans();
      OrphansKnown(sessions, start);
      WorkingTwice(given, start, symbol);
      TidyEntries(sessions, start, symbol);
      var tick := TickOf(intent);
      ClampedFits(intent.bidPrice, intent.askPrice, intent.touch, tick);
      var (bid, ask) := Clamp(intent.bidPrice, intent.askPrice, intent.touch, tick);
      assert bid == PriceOf(intent, Buy) && ask == PriceOf(intent, Sell);
      hide PriceOf;
      outcome, lost := SyncSession(intent, Buy, bid, intent.bidQty, tick);
      ghost var middle, bids := om.orders, sessions[symbol].bids;
      LevelsStored(was, bids, Buy);
      BidsSynced(start, middle, intent, was, bids, outcome, lost, orphans);
      if !outcome.Done? {
        RefreshedLive(start, intent, was, outcome);
        return;
      }
      assert orphans + {} == orphans;
      var askOutcome, askLost := SyncSession(intent, Sell, ask, intent.askQty, tick);
      ghost var now := sessions[symbol];
      LevelsStored(Session(bids, was.asks), now.asks, Sell);
      AsksSynced(start, middle, om.orders, intent, was, now, outcome, askOutcome, askLost, orphans);
      LiveTwice(orphans, askLost, middle, om.orders);
      lost := askLost;
      outcome := if askOutcome.Done? then Done(outcome.changed || askOutcome.changed) else askOutcome;
      RefreshedLive(start, intent, was, outcome);
      if outcome.Done? && Accepts(om.venue) && om.venue.settle.None? && MakesOnly(intent) && ZonesNest() {
        SettlesDown(start, intent, was, now, outcome);
      }
    }

    predicate MakesOnly(intent: Intent)
      reads this`settings
    {
      ModeFor(intent, settings, Buy).Make? && ModeFor(intent, settings, Sell).Make?
    }

    /** Every quote is younger than the minimum rest time. */
    ghost predicate Young(s: Session, now: real)
      reads this`settings
    {
      && settings.minRest > 0.0
      && forall w :: w in s.bids || w in s.asks ==> w.posted > 0.0 && now - w.posted < settings.minRest
    }

    ghost predicate SettledWhileYoung(intent: Intent, s: Session, o: Orders)
      reads this`settings
    {
      forall time :: Young(s, time) ==> Settled(intent, s, o, time)
    }

    /** After a refresh in MAKE nothing is left to do for the same intent until a quote is
        as old as the minimum rest time. */
    lemma SettlesDown(start: Orders, intent: Intent, was: Session, now: Session, outcome: Outcome)
      requires Valid() && intent.symbol in sessions && sessions[intent.symbol] == now && outcome.Done?
      requires Refreshed(start, om.orders, intent, was, now, outcome) && SessionLive(now, om.orders)
      requires InZones(om.orders, intent, Buy, was.bids, now.bids)
      requires InZones(om.orders, intent, Sell, was.asks, now.asks)
      requires Accepts(om.venue) && MakesOnly(intent) && ZonesNest()
      ensures SettledWhileYoung(intent, Working(sessions, om.orders, intent.symbol), om.orders)
    {
      WorkingLive(sessions, om.orders, intent.symbol);
      hide Tidy, Working, Accepts, FreshEntries, NoneWithdrawn, NewOrdersFit, OnlyMoved, SessionReported, PriceOf;
      hide TickOf, ZonesNest, KeepZone, SideSettled, Quoted;
      forall time | Young(now, time) ensures Settled(intent, now, om.orders, time) {
        SideSettles(start, intent, Buy, was.bids, now.bids, time);
        SideSettles(start, intent, Sell, was.asks, now.asks, time);
      }
    }

    lemma SideSettles(start: Orders, intent: Intent, side: Side, was: seq<Quote>, now: seq<Quote>, time: real)
      requires ModeFor(intent, settings, side).Make? && ZonesNest() && Accepts(om.venue)
      requires SideDone(start, om.orders, intent, side, was, now) && AllLive(now, om.orders)
      requires InZones(om.orders, intent, side, was, now)
      requires settings.minRest > 0.0
      requires forall w :: w in now ==> w.posted > 0.0 && time - w.posted < settings.minRest
      ensures SideSettled(intent, side, PriceOf(intent, side), QtyOf(intent, side), TickOf(intent), now, om.orders,
                          time)
    {
      hide PriceOf, TickOf, Sendable, Accepts, KeepZone, Quoted, Deep, Aggressive;
      if now != [] {
        assert now[0] in now;
        InIds(now, now[0].id);
      }
    }

    /** What syncing the bids means for the refresh. */
    lemma BidsSynced(start: Orders, middle: Orders, intent: Intent, was: Session, bids: seq<Quote>, outcome: Outcome,
                     lost: set<OrderId>, orphans: set<OrderId>)
      requires SyncedFor(start, middle, intent, Buy, was.bids, bids, outcome, lost) && NeverBoth(start)
      requires TidySide(was.bids, start, intent.symbol, Buy) && TidySide(was.asks, start, intent.symbol, Sell)
      requires PrunedSession(was, start) == was && FreshEntries(was, start)
      ensures Evolves(start, middle) && start.Keys <= middle.Keys
      ensures lost != {} ==> outcome.CancelRaised? && LosesOne(intent, settings, was, lost)
      ensures Holds(om.venue, Buy) && HasSurplus(intent, settings, Buy, was) ==>
        outcome.CancelRaised? && LosesLast(was.bids, lost) && lost <= LiveAmong(orphans + lost, middle)
      ensures Accepts(om.venue) && (Yields(om.venue, Buy) || was.bids == []) ==> outcome.Done?
      ensures !outcome.Done? ==> Refreshed(start, middle, intent, was, Session(bids, was.asks), outcome)
      ensures outcome.Done? ==> lost == {}
    {
      hide Sound, Evolves, Ids, Pruned, Distinct, Belong, Reported, Quoted, NoneWithdrawn, Popped, Single;
      hide Accepts, Yields, Holds, FullLadder, KeepZone, SingleDone, AllLive, RuleFor, TickOf, PriceOf, LiveAmong;
      hide FreshEntries, Refreshed;
      SoundEvolves(start, middle, SideRule(intent, Buy, was), was.bids, bids, lost);
      AsksKept(start, middle, SideRule(intent, Buy, was), was, bids, lost);
      LosesFrom(intent, settings, Buy, was, start, bids, outcome, lost);
      if !outcome.Done? {
        BidRaised(start, middle, intent, was, bids, outcome, lost);
      }
      if Holds(om.venue, Buy) && HasSurplus(intent, settings, Buy, was) {
        LostIsOrphan(was.bids, start, orphans, lost);
      }
    }

    /** What syncing the asks after the bids means for the refresh. */
    lemma AsksSynced(start: Orders, middle: Orders, end: Orders, intent: Intent, was: Session, now: Session,
                     bidOutcome: Outcome, askOutcome: Outcome, lost: set<OrderId>, orphans: set<OrderId>)
      requires SyncedFor(start, middle, intent, Buy, was.bids, now.bids, bidOutcome, {}) && bidOutcome.Done?
      requires SyncedFor(middle, end, intent, Sell, was.asks, now.asks, askOutcome, lost) && NeverBoth(start)
      requires TidySide(was.bids, start, intent.symbol, Buy) && TidySide(was.asks, start, intent.symbol, Sell)
      requires PrunedSession(was, start) == was && FreshEntries(was, start)
      ensures var outcome := if askOutcome.Done? then Done(bidOutcome.changed || askOutcome.changed) else askOutcome;
        && Refreshed(start, end, intent, was, now, outcome)
        && (lost != {} ==> outcome.CancelRaised? && LosesOne(intent, settings, was, lost))
        && (Holds(om.venue, Sell) && HasSurplus(intent, settings, Sell, was) ==>
              outcome.CancelRaised? && LosesLast(was.asks, lost) && lost <= LiveAmong(orphans + lost, end))
        && (Accepts(om.venue) && (Yields(om.venue, Sell) || was.asks == []) ==> outcome.Done?)
        && (outcome.Done? ==>
              InZones(end, intent, Buy, was.bids, now.bids) && InZones(end, intent, Sell, was.asks, now.asks))
        && (Accepts(om.venue) && outcome.Done? ==>
              LadderFull(intent, Buy, was.bids, now.bids) && LadderFull(intent, Sell, was.asks, now.asks))
      ensures Evolves(middle, end)
    {
      hide Sound, Evolves, Ids, Pruned, Distinct, Belong, Reported, Quoted, NoneWithdrawn, Popped, Single;
      hide Accepts, Yields, Holds, FullLadder, KeepZone, SingleDone, AllLive, RuleFor, TickOf, PriceOf, LiveAmong;
      hide FreshEntries, Refreshed, InZones, LadderFull;
      var bidRule, askRule := SideRule(intent, Buy, was), SideRule(intent, Sell, was);
      SoundEvolves(start, middle, bidRule, was.bids, now.bids, {});
      AsksKept(start, middle, bidRule, was, now.bids, {});
      SoundEvolves(middle, end, askRule, was.asks, now.asks, lost);
      AsksLose(start, middle, end, intent, was, now, askOutcome, lost, orphans);
      BothSynced(start, middle, end, intent, was, now, bidOutcome, askOutcome, lost);
      SyncedInZones(start, middle, intent, Buy, was.bids, now.bids, bidOutcome, {});
      EntriesKnown(was.bids, start, bidRule);
      InZonesLater(middle, end, intent, Buy, was.bids, now.bids);
      if askOutcome.Done? {
        SyncedInZones(middle, end, intent, Sell, was.asks, now.asks, askOutcome, lost);
      }
      if Accepts(om.venue) {
        LadderSynced(start, middle, intent, Buy, was.bids, now.bids, bidOutcome, {});
        LadderSynced(middle, end, intent, Sell, was.asks, now.asks, askOutcome, lost);
      }
    }

    lemma AsksLose(start: Orders, middle: Orders, end: Orders, intent: Intent, was: Session, now: Session,
                   outcome: Outcome, lost: set<OrderId>, orphans: set<OrderId>)
      requires SyncedFor(middle, end, intent, Sell, was.asks, now.asks, outcome, lost)
      requires Distinct(was.asks) && Pruned(was.asks, start) == was.asks
      requires om.venue.settle.None? ==> Pruned(was.asks, middle) == was.asks
      ensures lost != {} ==> outcome.CancelRaised? && LosesOne(intent, settings, was, lost)
      ensures Holds(om.venue, Sell) && HasSurplus(intent, settings, Sell, was) ==>
        outcome.CancelRaised? && LosesLast(was.asks, lost) && lost <= LiveAmong(orphans + lost, end)
    {
      hide Sound, Evolves, Ids, Pruned, Distinct, Belong, Reported, Quoted, NoneWithdrawn, Popped, Single;
      hide Accepts, Yields, Holds, FullLadder, KeepZone, SingleDone, AllLive, RuleFor, TickOf, PriceOf, LiveAmong;
      LosesFrom(intent, settings, Sell, was, middle, now.asks, outcome, lost);
      if Holds(om.venue, Sell) && HasSurplus(intent, settings, Sell, was) {
        HoldsQuiet(om.venue, Sell);
        LostIsOrphan(was.asks, middle, orphans, lost);
      }
    }

    lemma RefreshedMoves(before: Orders, intent: Intent, was: Session, outcome: Outcome)
      requires intent.symbol in sessions
      requires Refreshed(before, om.orders, intent, was, sessions[intent.symbol], outcome)
      ensures OnlyMoved(before, om.orders, {intent.symbol})
      ensures outcome.Done? ==> SessionReported(outcome.changed, was, sessions[intent.symbol])
    {
      hide OnlyMoved, SessionReported, FreshEntries, NewOrdersFit, SideDone;
    }

    /** At a quiet venue every entry of a refreshed session is live. */
    lemma RefreshedLive(before: Orders, intent: Intent, was: Session, outcome: Outcome)
      requires Valid() && intent.symbol in sessions
      requires Refreshed(before, om.orders, intent, was, sessions[intent.symbol], outcome)
      ensures !outcome.CancelRaised? && om.venue.settle.None? ==> SessionLive(sessions[intent.symbol], om.orders)
    {
      TidyEntries(sessions, om.orders, intent.symbol);
      hide Tidy, Distinct, Belong, NoneWithdrawn, AllLive, FreshEntries, NewOrdersFit, OnlyMoved, SideDone;
      if !outcome.CancelRaised? && om.venue.settle.None? {
        StandingIsLive(sessions[intent.symbol].bids, om.orders, intent.symbol, Buy);
        StandingIsLive(sessions[intent.symbol].asks, om.orders, intent.symbol, Sell);
      }
    }

    /** One turn of the loop of refresh. */
    method RefreshOne(intents: seq<Intent>, i: nat) returns (outcome: Outcome, ghost lost: set<OrderId>)
      requires Valid() && i < |intents|
      modifies this`sessions, om
      ensures Valid() && Orphans() == LiveAmong(old(Orphans()) + lost, om.orders)
      ensures lost != {} ==> outcome.CancelRaised? && LosesFor(intents, settings, lost, om.orders)
      ensures Evolves(old(om.orders), om.orders) && OnlyMoved(old(om.orders), om.orders, {intents[i].symbol})
      ensures var symbol := intents[i].symbol;
        && symbol in sessions && sessions == old(sessions)[symbol := sessions[symbol]]
        && (outcome.Done? ==> SessionReported(
                  outcome.changed, Working(old(sessions), old(om.orders), symbol), sessions[symbol]))
      ensures old(AllQuoted()) && om.venue.settle.None? && !outcome.CancelRaised? ==> AllQuoted()
      ensures Accepts(om.venue) && Yields(om.venue, Buy) && Yields(om.venue, Sell) ==> outcome.Done?
    {
      hide Tidy, OrphansOf, LiveAmong, HasSurplus, Evolves, OnlyMoved, SessionReported, Working, Accepts, Yields, Holds;
      hide LosesOne, LosesFor, SessionsLive, SessionLive, OnlyWithdrawn, LadderFull, Refreshed;
      ghost var given, before := sessions, om.orders;
      assert forall id :: id in before && before[id].withdrawn ==> !before[id].live;
      outcome, lost := RefreshSymbol(intents[i]);
      RefreshedMoves(before, intents[i], Working(given, before, intents[i].symbol), outcome);
      MovedEvolves(before, om.orders, {intents[i].symbol});
      if SessionsLive(given, before) && om.venue.settle.None? && !outcome.CancelRaised? {
        OthersStayLive(given, sessions, before, om.orders, intents[i].symbol);
      }
      if lost != {} {
        LosesForOne(intents, i, settings, given, before, om.orders, lost);
      }
    }

    /** refresh: up to the per-tick limit of changed symbols, stopping at an exception.
        `done` intents were taken, `changes` of them reported a change. */
    method Refresh(intents: seq<Intent>)
      returns (outcome: Outcome, ghost lost: set<OrderId>, ghost done: nat, ghost changes: nat)
      requires Valid()
      modifies this`sessions, om
      ensures Valid() && Orphans() == LiveAmong(old(Orphans()) + lost, om.orders)
      ensures lost != {} ==> settings.enabled && outcome.CancelRaised? && LosesFor(intents, settings, lost, om.orders)
      ensures Evolves(old(om.orders), om.orders)
      ensures !settings.enabled ==> outcome == Done(false) && sessions == old(sessions) && om.orders == old(om.orders)
      ensures settings.enabled ==>
        var limit := settings.maxRefreshPerTick;
        && done <= |intents| && (outcome.Done? && done < |intents| ==> changes == limit > 0)
        && (limit > 0 ==> changes <= limit && |QuotedAnew(sessions, old(om.orders))| <= limit)
        && (forall k :: 0 <= k < done ==> intents[k].symbol in sessions)
        && SameElsewhere(old(sessions), sessions, SymbolsOf(intents[..done]))
        && OnlyMoved(old(om.orders), om.orders, SymbolsOf(intents[..done]))
      ensures old(AllQuoted()) && om.venue.settle.None? && !outcome.CancelRaised? ==> AllQuoted()
      ensures Accepts(om.venue) && Yields(om.venue, Buy) && Yields(om.venue, Sell) ==> outcome.Done?
    {
      hide Tidy, OrphansOf, LiveAmong, Evolves, OnlyMoved, SessionReported, Working, QuotedAnew, Accepts, Yields, Holds;
      hide LosesFor, SameElsewhere, SymbolsOf, SessionsLive, OnlyWithdrawn;
      outcome, lost, done, changes := Done(false), {}, 0, 0;
      ghost var orphans, calm := Orphans(), AllQuoted() && om.venue.settle.None?;
      OrphansKnown(sessions, om.orders);
      SelfEvolves(om.orders);
      assert orphans + {} == orphans;
      if !settings.enabled {
        return;
      }
      var n, maxN := 0, PerTick(settings);
      NothingMoved(sessions, om.orders, intents);
      for i := 0 to |intents|
        invariant Valid() && outcome.Done? && lost == {} && done == i && changes == n
        invariant Orphans() == LiveAmong(orphans, om.orders) && Evolves(old(om.orders), om.orders)
        invariant orphans <= om.orders.Keys
        invariant maxN > 0 ==> n <= maxN
        invariant |QuotedAnew(sessions, old(om.orders))| <= n
        invariant forall k :: 0 <= k < i ==> intents[k].symbol in sessions
        invariant SameElsewhere(old(sessions), sessions, SymbolsOf(intents[..i]))
        invariant OnlyMoved(old(om.orders), om.orders, SymbolsOf(intents[..i]))
        invariant calm ==> SessionsLive(sessions, om.orders)
      {
        if maxN > 0 && n >= maxN {
          break;
        }
        ghost var given, before := sessions, om.orders;
        outcome, lost := RefreshOne(intents, i);
        done := i + 1;
        OneMore(old(sessions), given, sessions, old(om.orders), before, om.orders, intents, i);
        EvolvesKeys(before, om.orders);
        EvolvesTransitive(old(om.orders), before, om.orders);
        LiveTwice(orphans, lost, before, om.orders);
        assert orphans + {} == orphans;
        AnewStep(given, sessions, old(om.orders), before, intents[i].symbol, outcome);
        if !outcome.Done? {
          return;
        }
        if outcome.changed {
          n := n + 1;
          changes := changes + 1;
        }
      }
      assert intents[..|intents|] == intents;
    }

    /** cancel_all for one symbol: the session is forgotten first, so when a cancel
        raises everything of it that is still live is orphaned. */
    method CancelSymbol(symbol: Symbol) returns (ok: bool)
      requires Valid()
      modifies this`sessions, om`orders, om`clock
      ensures Valid() && sessions == old(sessions) - {symbol}
      ensures om.orders.Keys == old(om.orders.Keys) && Evolves(old(om.orders), om.orders)
      ensures var gone := SessionOf(old(sessions), symbol);
        && Orphans() == LiveAmong(old(Orphans()) + SessionIds(gone), om.orders)
        && (ok ==> NoneLive(gone, om.orders))
        && (old(NoOrphans()) ==> (NoOrphans() <==> NoneLive(gone, om.orders)))
        && (Holds(om.venue, Buy) && Holds(om.venue, Sell) ==>
              om.orders == old(om.orders) && (ok <==> NoneLive(gone, om.orders)))
      ensures symbol !in old(sessions) || (Yields(om.venue, Buy) && Yields(om.venue, Sell)) ==> ok
      ensures OthersKept(old(om.orders), om.orders, SessionIds(SessionOf(old(sessions), symbol)), om.venue.settle.None?)
      ensures old(AllQuoted()) && om.venue.settle.None? ==> AllQuoted()
    {
      hide Evolves, Tidy, Ids, OrphansOf, LiveAmong, Holds, Yields, OthersKept, SessionsLive;
      ghost var given, start := sessions, om.orders;
      ghost var gone := SessionOf(given, symbol);
      SelfEvolves(om.orders);
      MirrorForget(given, start, symbol);
      EntriesOf(given, start, symbol);
      SelfKept(start, SessionIds(gone), om.venue.settle.None?);
      ok := true;
      if symbol in sessions {
        var s := sessions[symbol];
        sessions := sessions - {symbol};
        var all := s.bids + s.asks;
        for i := 0 to |all|
          invariant om.Valid() && Evolves(start, om.orders) && om.orders.Keys == start.Keys && ok
          invariant sessions == given - {symbol}
          invariant OthersKept(start, om.orders, SessionIds(gone), om.venue.settle.None?)
          invariant forall j :: 0 <= j < i && all[j].id in om.orders ==> !om.orders[all[j].id].live
          invariant Holds(om.venue, Buy) && Holds(om.venue, Sell) ==> om.orders == start
        {
          ghost var now := om.orders;
          ghost var side := now[all[i].id].side;
          assert side == Buy || side == Sell;
          assert Holds(om.venue, Buy) && Holds(om.venue, Sell) ==> Holds(om.venue, side);
          assert Yields(om.venue, Buy) && Yields(om.venue, Sell) ==> Yields(om.venue, side);
          ok := om.Cancel(all[i].id);
          EvolvesTransitive(start, now, om.orders);
          EntryOf(s, i);
          KeptAlso(start, now, om.orders, SessionIds(gone), all[i].id, om.venue.settle.None?);
          StaysEnded(now, om.orders, all);
          if !ok {
            if Holds(om.venue, Buy) && Holds(om.venue, Sell) {
              EntryLive(s, om.orders, i);
            }
            break;
          }
        }
        if ok {
          AllNoneLive(s, om.orders);
        }
      } else {
        assert given - {symbol} == given;
        NothingLive(om.orders);
      }
      MirrorMoves(sessions, start, om.orders);
      OrphansKnown(given, start);
      JoinNothing(OrphansOf(given, start) + SessionIds(gone), start, om.orders);
      TidyMoves(sessions, start, om.orders);
      ForgottenIff(OrphansOf(given, start), gone, om.orders);
      if SessionsLive(given, start) && om.venue.settle.None? {
        ForgettingKeepsLive(given, start, om.orders, symbol);
      }
    }

    /** cancel_all: the named symbols, or every session when none is named, up to the
        first cancel that raises. */
    method CancelAll(symbols: seq<Symbol>) returns (ok: bool, ghost lost: set<OrderId>)
      requires Valid()
      modifies this`sessions, om`orders, om`clock
      ensures Valid() && Orphans() == LiveAmong(old(Orphans()) + lost, om.orders)
      ensures om.orders.Keys == old(om.orders.Keys) && Evolves(old(om.orders), om.orders)
      ensures forall s :: s in sessions ==> s in old(sessions) && sessions[s] == old(sessions)[s]
      ensures forall s :: s in old(sessions) && !Names(symbols, s) ==> s in sessions
      ensures ok ==> lost == {} && forall s :: s in sessions ==> !Names(symbols, s)
      ensures !ok ==> exists s ::
        s in old(sessions) && s !in sessions && Names(symbols, s) && lost == SessionIds(old(sessions)[s])
      ensures Yields(om.venue, Buy) && Yields(om.venue, Sell) ==> ok
      ensures old(AllQuoted()) && om.venue.settle.None? ==> AllQuoted()
    {
      hide SessionsLive, OthersKept, OnlyWithdrawn;
      hide Evolves, Tidy, NoneLive, OrphansOf, LiveAmong, SessionIds, Yields, Holds;
      var targets := symbols;
      if symbols == [] {
        targets := Listed(sessions.Keys);
      }
      ok, lost := true, {};
      ghost var orphans := Orphans();
      SelfEvolves(om.orders);
      OrphansKnown(sessions, om.orders);
      for i := 0 to |targets|
        invariant Valid() && Orphans() == LiveAmong(orphans, om.orders)
        invariant om.orders.Keys == old(om.orders.Keys) && Evolves(old(om.orders), om.orders)
        invariant forall s :: s in sessions ==> s in old(sessions) && sessions[s] == old(sessions)[s]
        invariant forall s :: s in old(sessions) && s !in sessions ==> s in targets[..i]
        invariant forall s :: s in targets[..i] ==> s !in sessions
        invariant old(AllQuoted()) && om.venue.settle.None? ==> AllQuoted()
      {
        ghost var given, now := sessions, om.orders;
        var symbol := targets[i];
        assert targets[..i + 1] == targets[..i] + [symbol];
        ghost var gone := SessionOf(sessions, symbol);
        ok := CancelSymbol(symbol);
        EvolvesTransitive(old(om.orders), now, om.orders);
        LiveTwice(orphans, SessionIds(gone), now, om.orders);
        if !ok {
          lost := SessionIds(gone);
          assert symbol in given;
          return;
        }
        NothingOrphaned(orphans, gone, om.orders);
      }
      assert targets[..|targets|] == targets;
      assert orphans + {} == orphans;
      ok := true;
    }

    /** clear_sessions: no cancel is sent, so the quotes stay mirrored exactly when none
        of the forgotten symbols has a live order. */
    method ClearSessions(symbols: Option<seq<Symbol>>)
      requires Valid()
      modifies this`sessions
      ensures Valid()
      ensures sessions == match symbols case None => map[] case Some(list) => old(sessions) - (set s | s in list)
      ensures old(NoOrphans()) ==> (NoOrphans() <==> NoneLiveOf(symbols, om.orders))
    {
      ghost var given := sessions;
      match symbols {
      case None =>
        sessions := map[];
      case Some(list) =>
        for i := 0 to |list|
          invariant Valid() && sessions == given - (set s | s in list[..i])
        {
          assert list[..i + 1] == list[..i] + [list[i]];
          sessions := sessions - {list[i]};
        }
        assert list[..|list|] == list;
      }
      if OrphansOf(given, om.orders) == {} {
        ClearedIff(given, sessions, om.orders, symbols);
      }
    }

    method ApplySettings(settings: Settings)
      requires Valid()
      modifies this`settings
      ensures Valid() && this.settings == settings
    {
      this.settings := settings;
    }

    /** One operation of a run. */
    method Perform(operation: Operation) returns (raised: bool, ghost lost: set<OrderId>)
      requires Valid()
      modifies this`sessions, this`settings, om
      ensures Valid() && Orphans() == LiveAmong(old(Orphans()) + lost, om.orders)
      ensures old(om.orders.Keys) <= om.orders.Keys
      ensures Evolves(old(om.orders), om.orders) && settings == Configured(operation, old(settings))
      ensures lost != {} ==> raised && MayLose(operation, old(settings), lost, om.orders)
      ensures lost <= om.orders.Keys
      ensures Accepts(om.venue) && Yields(om.venue, Buy) && Yields(om.venue, Sell) ==> !raised
      ensures old(AllQuoted()) && om.venue.settle.None? && !raised ==> AllQuoted()
    {
      hide SessionsLive, OnlyWithdrawn;
      hide Evolves, Tidy, OrphansOf, LiveAmong, Accepts, Yields, Holds, OnlyMoved, SameElsewhere, QuotedAnew;
      hide SessionIds;
      ghost var given, start, orphans := sessions, om.orders, Orphans();
      raised, lost := false, {};
      SelfEvolves(start);
      OrphansKnown(sessions, start);
      assert orphans + {} == orphans;
      match operation
      case Refreshing(intents) =>
        var outcome: Outcome;
        ghost var done, changes;
        outcome, lost, done, changes := Refresh(intents);
        raised := !outcome.Done?;
        EvolvesKeys(start, om.orders);
      case Cancelling(symbols) =>
        var ok: bool;
        ok, lost := CancelAll(symbols);
        raised := !ok;
        EvolvesKeys(start, om.orders);
        if !ok {
          LosesNamed(given, start, om.orders, symbols, sessions, settings, lost);
        }
      case Pruning(symbol) => PruneSymbol(symbol);
      case Configuring(next) => ApplySettings(next);
      case VenueActing =>
        om.Suspend();
        SettlesEvolves(start, om.orders);
        MirrorMoves(sessions, start, om.orders);
        TidyMoves(sessions, start, om.orders);
    }

    /** Any sequence of refreshes, cancels, prunings, new settings and venue events,
        going on after whatever raised.  The orphans are exactly the live orders among
        those that a raising cancel lost, operation by operation: one quote of a MAKE or
        CHASE side in a refresh, the quotes of one session in cancel_all, and nothing
        anywhere else. */
    method Run(operations: seq<Operation>) returns (raised: seq<bool>, ghost lost: seq<set<OrderId>>)
      requires Valid() && NoOrphans()
      modifies this`sessions, this`settings, om
      ensures Valid() && |raised| == |lost| == |operations|
      ensures Orphans() == LiveAmong(AllOf(lost), om.orders)
      ensures LostAsAllowed(operations, old(settings), raised, lost, om.orders)
      ensures NoneRaised(raised) ==> NoOrphans()
      ensures old(AllQuoted()) && om.venue.settle.None? && NoneRaised(raised) ==> AllQuoted()
      ensures Accepts(om.venue) && Yields(om.venue, Buy) && Yields(om.venue, Sell) ==> NoneRaised(raised)
    {
      assert operations[..0] == [] && SettingsAt([], settings) == settings;
      raised, lost := [], [];
      NothingLost(sessions, om.orders);
      assert LostAsAllowed(operations, settings, raised, lost, om.orders) && NoneRaised(raised);
      hide Evolves, Tidy, OrphansOf, LiveAmong, SettingsAt, MayLose, Accepts, Yields, Holds, AllOf, SessionsLive;
      hide OnlyWithdrawn, NoneRaised, LostAsAllowed;
      for i := 0 to |operations|
        invariant Valid() && |raised| == |lost| == i && settings == SettingsAt(operations[..i], old(settings))
        invariant Orphans() == LiveAmong(AllOf(lost), om.orders) && AllOf(lost) <= om.orders.Keys
        invariant LostAsAllowed(operations, old(settings), raised, lost, om.orders)
        invariant Accepts(om.venue) && Yields(om.venue, Buy) && Yields(om.venue, Sell) ==> NoneRaised(raised)
        invariant old(AllQuoted()) && om.venue.settle.None? && NoneRaised(raised) ==> AllQuoted()
      {
        SettingsSnoc(operations, i, old(settings));
        ghost var now := om.orders;
        var failed: bool;
        ghost var gone: set<OrderId>;
        failed, gone := Perform(operations[i]);
        LiveTwice(AllOf(lost), gone, now, om.orders);
        AllSnoc(lost, gone);
        LostSnoc(operations, old(settings), raised, lost, now, om.orders, failed, gone);
        NoneRaisedSnoc(raised, failed);
        raised, lost := raised + [failed], lost + [gone];
      }
      assert operations[..|operations|] == operations;
      if NoneRaised(raised) {
        CalmLosesNothing(lost, raised, operations, old(settings), om.orders);
      }
    }
  }

  const TWO_RUNGS := Settings(true, 0, 0.0, 10.0, 0.0, 1.0, 1, 2, 1, [1.0, 1.0], 4, Make, Make)

  function BidOnly(mode: Mode): Intent {
    Intent("BTC", Some(99.0), None, 2.0, 0.0, false, false, false, false, mode, Make, None, None, 99.0, None,
           Touch(None, None))
  }

  /** An empty executor at a venue that accepts every order and raises on every cancel
      of a live bid. */
  method EmptyExecutor() returns (executor: QuoteExecutor)
    ensures fresh(executor) && fresh(executor.om) && executor.Valid() && executor.NoOrphans()
    ensures executor.sessions == map[] && Accepts(executor.om.venue) && Holds(executor.om.venue, Buy)
    ensures executor.settings == TWO_RUNGS && executor.sizing == ((s, q, p, r) => Some(q))
  {
    var venue := Venue(None, (n, q: Question) => q.Keeps?, n => Error(None, None));
    var om := new OrderManager(venue);
    executor := new QuoteExecutor(om, (s, q, p, r) => Some(q), n => 0.0, TWO_RUNGS);
  }

  /** Both rungs have a positive price and size. */
  lemma TwoRungs(tick: real)
    requires 0.0 < tick < 50.0
    ensures var t := LadderLevels(Buy, 99.0, 2.0, tick, 2, 1, [1.0, 1.0]);
      && |t| == 2 && (forall k :: 0 <= k < 2 ==> t[k].price > 0.0 && t[k].qty > 0.0)
  {
    var w := [1.0, 1.0];
    assert w[..1][..0] == [] && w[..1] == [1.0];
    assert Total(w) == 2.0;
    var spacing := Times(1.0, tick);
    assert LevelPrice(Buy, 99.0, 0, spacing) == 99.0 && LevelPrice(Buy, 99.0, 1, spacing) == 99.0 - tick;
    assert LevelsUpTo(Buy, 99.0, 2.0, spacing, w, 0) == [];
    assert |LevelsUpTo(Buy, 99.0, 2.0, spacing, w, 1)| == 1;
  }

  lemma WorkingLive(sessions: map<Symbol, Session>, o: Orders, symbol: Symbol)
    requires symbol in sessions && SessionLive(sessions[symbol], o)
    ensures Working(sessions, o, symbol) == sessions[symbol]
  {
    var s := sessions[symbol];
    forall w | w in s.bids || w in s.asks ensures w.id in o && o[w.id].live {
      InIds(s.bids, w.id);
      InIds(s.asks, w.id);
    }
    PrunedSame(s.bids, o);
    PrunedSame(s.asks, o);
  }

  /** A ladder refresh of an empty executor and then a MAKE refresh: of the two live
      bids MAKE wants one, and when the venue raises on the cancel of the second, it
      stays live and is in no session. */
  method LosingRefresh() returns (executor: QuoteExecutor, orphan: OrderId)
    ensures executor.Valid() && executor.Orphans() == {orphan} && executor.om.orders[orphan].live
  {
    executor := EmptyExecutor();
    hide Tidy, Tracked, HasSurplus, Holds, Accepts, Yields, QuoteExecutor.Refreshed, LosesOne, SessionLive;
    NothingPruned(executor.om.orders);
    var outcome, lost := executor.RefreshSymbol(BidOnly(Ladder));
    var bids := executor.sessions["BTC"].bids;
    TwoBids(executor, bids);
    WorkingLive(executor.sessions, executor.om.orders, "BTC");
    outcome, lost := executor.RefreshSymbol(BidOnly(Make));
    orphan := bids[1].id;
  }

  /** The ladder has two rungs, and both are surplus to MAKE. */
  lemma TwoBids(executor: QuoteExecutor, bids: seq<Quote>)
    requires executor.settings == TWO_RUNGS && executor.sizing == ((s, q, p, r) => Some(q))
    requires executor.LadderFull(BidOnly(Ladder), Buy, [], bids)
    ensures |bids| == 2
    ensures forall asks :: HasSurplus(BidOnly(Make), TWO_RUNGS, Buy, Session(bids, asks))
  {
    var intent := BidOnly(Ladder);
    var tick := TickOf(intent);
    TwoRungs(tick);
    var t := executor.TargetFor(intent, Buy, [], 99.0, 2.0, tick);
    assert PriceOf(intent, Buy) == Some(99.0);
    assert |executor.LadderTargets(t)| == 2;
    assert executor.AllSendable(t);
  }
}
