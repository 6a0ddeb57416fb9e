/** The batch coalescer drops superseded snapshots.  It keeps the meaning of a
    batch because that meaning is a digest which coalescing leaves alone. */
module Coalescing {
  import opened Collections
  import opened ConsoleState
  import opened ParentClose

  // --- The coalescer -----------------------------------------------------------------

  /** The deferred events: position slots in the order a symbol first came up. */
  datatype Slots = Slots(hub: seq<Event>, health: seq<Event>, latency: seq<Event>,
                         positions: seq<Event>, equity: seq<Event>)

  const EMPTY := Slots([], [], [], [], [])

  function Flushed(s: Slots): seq<Event> { s.hub + s.health + s.latency + s.positions + s.equity }

  /** Map.set: an existing symbol keeps its place. */
  function SetPosition(ps: seq<Event>, e: Event): seq<Event>
    requires e.PositionEvent? && PositionsFiled(ps)
  {
    if ps == [] then [e]
    else if ps[0].position.symbol == e.position.symbol then [e] + ps[1..]
    else [ps[0]] + SetPosition(ps[1..], e)
  }

  predicate Health(e: Event) { e.StatusEvent? && e.status.kind.SystemHealth? }
  predicate Latency(e: Event) { e.StatusEvent? && e.status.kind.LatencyMetrics? }

  predicate Deferred(e: Event) {
    e.HubEvent? || Health(e) || Latency(e) || e.PositionEvent? || e.EquityEvent?
  }

  predicate Filed(s: Slots) {
    && |s.hub| <= 1 && |s.health| <= 1 && |s.latency| <= 1 && |s.equity| <= 1
    && (s.hub != [] ==> s.hub[0].HubEvent?) && (s.health != [] ==> Health(s.health[0]))
    && (s.latency != [] ==> Latency(s.latency[0])) && (s.equity != [] ==> s.equity[0].EquityEvent?)
    && PositionsFiled(s.positions)
  }

  predicate PositionsFiled(ps: seq<Event>) {
    && (forall i :: 0 <= i < |ps| ==> ps[i].PositionEvent? && ps[i].position.symbol != "")
    && (forall i, j :: 0 <= i < j < |ps| ==> ps[i].position.symbol != ps[j].position.symbol)
  }

  function Defer(s: Slots, e: Event): Slots
    requires Deferred(e) && Filed(s)
  {
    if e.HubEvent? then s.(hub := [e])
    else if Health(e) then s.(health := [e])
    else if Latency(e) then s.(latency := [e])
    else if e.EquityEvent? then s.(equity := [e])
    else if e.position.symbol == "" then s
    else s.(positions := SetPosition(s.positions, e))
  }

  lemma {:induction false} SetPositionFiled(ps: seq<Event>, e: Event)
    requires PositionsFiled(ps) && e.PositionEvent? && e.position.symbol != ""
    ensures PositionsFiled(SetPosition(ps, e)) && |SetPosition(ps, e)| <= |ps| + 1
    ensures forall x :: x in SetPosition(ps, e) ==> x == e || x in ps
  {
    if ps != [] && ps[0].position.symbol != e.position.symbol {
      assert PositionsFiled(ps[1..]);
      SetPositionFiled(ps[1..], e);
      var rest := SetPosition(ps[1..], e);
      forall i | 0 <= i < |rest| ensures rest[i].position.symbol != ps[0].position.symbol {
        assert rest[i] in rest;
        if rest[i] != e {
          assert rest[i] in ps[1..];
        }
      }
    }
  }

  lemma DeferFiled(s: Slots, e: Event)
    requires Deferred(e) && Filed(s)
    ensures Filed(Defer(s, e)) && |Flushed(Defer(s, e))| <= |Flushed(s)| + 1
  {
    if e.PositionEvent? && e.position.symbol != "" {
      SetPositionFiled(s.positions, e);
    }
  }

  /** Output and slots after a batch. */
  ghost function Run(events: seq<Event>): (r: (seq<Event>, Slots))
    ensures Filed(r.1)
    decreases |events|
  {
    if events == [] then ([], EMPTY)
    else
      var (out, slots) := Run(events[..|events| - 1]);
      Next(out, slots, events[|events| - 1])
  }

  ghost function Next(out: seq<Event>, slots: Slots, e: Event): (r: (seq<Event>, Slots))
    requires Filed(slots)
    ensures Filed(r.1)
  {
    if Deferred(e) then
      DeferFiled(slots, e);
      (out, Defer(slots, e))
    else (out + Flushed(slots) + [e], EMPTY)
  }

  ghost function Coalesced(events: seq<Event>): seq<Event> {
    if |events| <= 1 then events else Run(events).0 + Flushed(Run(events).1)
  }

  /** coalesceWsEventBatch */
  method CoalesceWsEventBatch(events: seq<Event>) returns (out: seq<Event>)
    ensures out == Coalesced(events)
  {
    if |events| <= 1 {
      return events;
    }
    hide Flushed, SetPosition, Filed;
    out := [];
    var slots := EMPTY;
    assert Run(events[..0]) == ([], EMPTY);
    for i := 0 to |events|
      invariant Filed(slots) && (out, slots) == Run(events[..i])
    {
      var event := events[i];
      assert events[..i + 1][..i] == events[..i];
      DeferOrFlush(slots, event);
      if event.HubEvent? {
        slots := slots.(hub := [event]);
        continue;
      }
      if event.StatusEvent? && event.status.kind.SystemHealth? {
        slots := slots.(health := [event]);
        continue;
      }
      if event.StatusEvent? && event.status.kind.LatencyMetrics? {
        slots := slots.(latency := [event]);
        continue;
      }
      if event.PositionEvent? {
        if event.position.symbol != "" {
          slots := Defer(slots, event);
        }
        continue;
      }
      if event.EquityEvent? {
        slots := slots.(equity := [event]);
        continue;
      }
      out := out + Flushed(slots);
      slots := EMPTY;
      out := out + [event];
    }
    assert events[..|events|] == events;
    out := out + Flushed(slots);
  }

  lemma DeferOrFlush(s: Slots, e: Event)
    requires Filed(s)
    ensures Filed(EMPTY) && (Deferred(e) ==> Filed(Defer(s, e)))
  {
    if Deferred(e) {
      DeferFiled(s, e);
    }
  }

  /** applyWsEvents: the coalesced batch without its log lines goes through the
      reducer, then the log lines are put in front. */
  method ApplyWsEvents<R>(shell: Shell<R>, prev: Stream<R>, events: seq<Event>, closes: ParentCloses)
    returns (next: Stream<R>)
    modifies closes
    ensures (next, closes.pending) == Applied(shell, prev, old(closes.pending), events)
  {
    hide Reduced, Coalesced;
    var coalesced := CoalesceWsEventBatch(events);
    var logLines: seq<string>, rest: seq<Event> := [], [];
    for i := 0 to |coalesced|
      invariant logLines == Lines(coalesced[..i]) && rest == Muted(coalesced[..i])
    {
      assert coalesced[..i + 1][..i] == coalesced[..i];
      if coalesced[i].LogEvent? {
        logLines := logLines + [coalesced[i].line];
      } else {
        rest := rest + [coalesced[i]];
      }
    }
    assert coalesced[..|coalesced|] == coalesced;
    next := prev;
    for i := 0 to |rest|
      invariant (next, closes.pending) == ReducedAll(shell, prev, old(closes.pending), rest[..i])
    {
      assert rest[..i + 1][..i] == rest[..i];
      next := ApplyWsEvent(shell, next, rest[i], closes);
    }
    assert rest[..|rest|] == rest;
    next := next.(logs := logLines + next.logs);
  }

  ghost function Lines(events: seq<Event>): seq<string> {
    if events == [] then []
    else Lines(events[..|events| - 1]) + if events[|events| - 1].LogEvent? then [events[|events| - 1].line] else []
  }

  /** The events that are not log lines. */
  ghost function Muted(events: seq<Event>): seq<Event> {
    if events == [] then []
    else Muted(events[..|events| - 1]) + if events[|events| - 1].LogEvent? then [] else [events[|events| - 1]]
  }

  ghost function Applied<R>(shell: Shell<R>, s: Stream<R>, pending: PendingMap, events: seq<Event>)
    : (Stream<R>, PendingMap)
  {
    var (next, after) := ReducedAll(shell, s, pending, Muted(Coalesced(events)));
    (next.(logs := Lines(Coalesced(events)) + next.logs), after)
  }

  // --- The digest of a batch ------------------------------------------------------------

  /** What a batch does to the projected state: ledger events in order, the last hub
      payload, the last position per symbol, the KPI overrides, and the status events
      that are kept in place. */
  datatype Digest = Digest(
    ledger: seq<Event>, hub: Option<string>, positions: map<string, PositionData>,
    board: map<Field, real>, status: seq<StatusData>)

  const NO_DIGEST := Digest([], None, map[], map[], [])

  function One(e: Event): Digest {
    match e
    case HubEvent(h) => NO_DIGEST.(hub := Some(h))
    case PositionEvent(d) => if d.symbol == "" then NO_DIGEST else NO_DIGEST.(positions := map[d.symbol := d])
    case EquityEvent(p) => NO_DIGEST.(board := Carried(p))
    case StatusEvent(d) => if Deferred(e) then NO_DIGEST else NO_DIGEST.(status := [d])
    case _ => if ForLedger(e) then NO_DIGEST.(ledger := [e]) else NO_DIGEST
  }

  function Join(a: Digest, b: Digest): Digest {
    Digest(a.ledger + b.ledger, if b.hub.Some? then b.hub else a.hub, a.positions + b.positions,
           a.board + b.board, a.status + b.status)
  }

  ghost function DigestOf(events: seq<Event>): Digest {
    if events == [] then NO_DIGEST else Join(DigestOf(events[..|events| - 1]), One(events[|events| - 1]))
  }

  lemma JoinAssociates(a: Digest, b: Digest, c: Digest)
    ensures Join(Join(a, b), c) == Join(a, Join(b, c))
    ensures Join(a, NO_DIGEST) == a == Join(NO_DIGEST, a)
  {
    assert (a.ledger + b.ledger) + c.ledger == a.ledger + (b.ledger + c.ledger);
    assert (a.status + b.status) + c.status == a.status + (b.status + c.status);
    PlusAssociates(a.positions, b.positions, c.positions);
    PlusAssociates(a.board, b.board, c.board);
    PlusNone(a.positions);
    PlusNone(a.board);
    assert [] + a.ledger == a.ledger == a.ledger + [] && [] + a.status == a.status == a.status + [];
  }

  lemma {:induction false} DigestConcat(a: seq<Event>, b: seq<Event>)
    ensures DigestOf(a + b) == Join(DigestOf(a), DigestOf(b))
  {
    if b == [] {
      assert a + b == a;
      JoinAssociates(DigestOf(a), NO_DIGEST, NO_DIGEST);
    } else {
      hide Join, One;
      var init, e := b[..|b| - 1], b[|b| - 1];
      DigestConcat(a, init);
      assert (a + b)[..|a + b| - 1] == a + init;
      JoinAssociates(DigestOf(a), DigestOf(init), One(e));
    }
  }

  lemma LogDigest(e: Event)
    requires e.LogEvent?
    ensures One(e) == NO_DIGEST
  {
  }

  lemma {:induction false} DigestWithoutLogs(events: seq<Event>)
    ensures DigestOf(Muted(events)) == DigestOf(events)
  {
    if events != [] {
      var init, e := events[..|events| - 1], events[|events| - 1];
      DigestWithoutLogs(init);
      hide Join, One;
      if e.LogEvent? {
        JoinAssociates(DigestOf(init), NO_DIGEST, NO_DIGEST);
        LogDigest(e);
        assert Muted(events) == Muted(init);
      } else {
        assert Muted(events)[..|Muted(events)| - 1] == Muted(init);
      }
    }
  }

  // --- Coalescing keeps the digest --------------------------------------------------------

  /** Equal digests apart from the KPI overrides. */
  ghost predicate Alike(a: Digest, b: Digest) { a.(board := map[]) == b.(board := map[]) }

  function HubOf(hub: seq<Event>): Option<string>
    requires |hub| <= 1 && (hub != [] ==> hub[0].HubEvent?)
  {
    if hub == [] then None else Some(hub[0].hub)
  }

  function BoardOf(equity: seq<Event>): map<Field, real>
    requires |equity| <= 1 && (equity != [] ==> equity[0].EquityEvent?)
  {
    if equity == [] then map[] else Carried(equity[0].equity)
  }

  lemma SingleDigest(e: Event)
    ensures DigestOf([e]) == One(e) && DigestOf([]) == NO_DIGEST
  {
    assert [e][..0] == [];
    JoinAssociates(One(e), NO_DIGEST, NO_DIGEST);
  }

  lemma {:induction false} PositionsDigest(ps: seq<Event>)
    requires PositionsFiled(ps)
    ensures DigestOf(ps) == NO_DIGEST.(positions := DigestOf(ps).positions)
    ensures forall s :: s in DigestOf(ps).positions ==> exists i :: 0 <= i < |ps| && ps[i].position.symbol == s
  {
    if ps != [] {
      var n := |ps| - 1;
      PositionsDigest(ps[..n]);
      DigestStep(ps);
      hide DigestOf, Deferred;
      forall s | s in DigestOf(ps).positions ensures exists i :: 0 <= i < |ps| && ps[i].position.symbol == s {
        if s == ps[n].position.symbol {
          assert ps[n].position.symbol == s;
        } else {
          var i :| 0 <= i < n && ps[..n][i].position.symbol == s;
          assert ps[i].position.symbol == s;
        }
      }
    }
  }

  lemma {:induction false} SetPositionDigest(ps: seq<Event>, e: Event)
    requires PositionsFiled(ps) && e.PositionEvent? && e.position.symbol != ""
    ensures DigestOf(SetPosition(ps, e)).positions == DigestOf(ps).positions[e.position.symbol := e.position]
  {
    PositionsSingle(e);
    if ps == [] {
      SingleDigest(e);
    } else {
      HeadApart(ps);
      hide One, DigestOf, PositionsFiled, Join;
      var first, rest := ps[0], ps[1..];
      assert ps == [first] + rest;
      PositionsConcat([first], rest);
      PositionsSingle(first);
      var m, k := DigestOf(rest).positions, e.position.symbol;
      if first.position.symbol == k {
        PositionsConcat([e], rest);
        HeadReplaced(m, k, e.position, first.position);
      } else {
        SetPositionDigest(rest, e);
        PositionsConcat([first], SetPosition(rest, e));
        TailReplaced(m, first.position.symbol, first.position, k, e.position);
      }
    }
  }

  lemma HeadReplaced<K, V>(m: map<K, V>, k: K, v: V, was: V)
    requires k !in m
    ensures map[k := v] + m == (map[k := was] + m)[k := v]
  {
  }

  lemma TailReplaced<K, V>(m: map<K, V>, j: K, w: V, k: K, v: V)
    requires j != k
    ensures map[j := w] + m[k := v] == (map[j := w] + m)[k := v]
  {
  }

  lemma HeadApart(ps: seq<Event>)
    requires PositionsFiled(ps) && ps != []
    ensures PositionsFiled(ps[1..]) && ps[0].PositionEvent? && ps[0].position.symbol != ""
    ensures ps[0].position.symbol !in DigestOf(ps[1..]).positions
  {
    PositionsDigest(ps[1..]);
    hide DigestOf;
  }

  lemma PositionsConcat(a: seq<Event>, b: seq<Event>)
    ensures DigestOf(a + b).positions == DigestOf(a).positions + DigestOf(b).positions
  {
    DigestConcat(a, b);
  }

  lemma PositionsSingle(e: Event)
    requires e.PositionEvent? && e.position.symbol != ""
    ensures DigestOf([e]).positions == map[e.position.symbol := e.position]
  {
    SingleDigest(e);
  }

  lemma FlushDigest(s: Slots)
    requires Filed(s)
    ensures DigestOf(Flushed(s))
         == Digest([], HubOf(s.hub), DigestOf(s.positions).positions, BoardOf(s.equity), [])
  {
    SlotDigests(s);
    PositionsDigest(s.positions);
    hide DigestOf, One, Filed, PositionsFiled, Join, HubOf, BoardOf;
    DigestConcat(s.hub + s.health + s.latency + s.positions, s.equity);
    DigestConcat(s.hub + s.health + s.latency, s.positions);
    DigestConcat(s.hub + s.health, s.latency);
    DigestConcat(s.hub, s.health);
    JoinSlots(HubOf(s.hub), DigestOf(s.positions).positions, BoardOf(s.equity));
  }

  lemma SlotDigests(s: Slots)
    requires Filed(s)
    ensures DigestOf(s.hub) == NO_DIGEST.(hub := HubOf(s.hub))
    ensures DigestOf(s.health) == DigestOf(s.latency) == NO_DIGEST
    ensures DigestOf(s.equity) == NO_DIGEST.(board := BoardOf(s.equity))
  {
    SlotDigest(s.hub);
    SlotDigest(s.health);
    SlotDigest(s.latency);
    SlotDigest(s.equity);
    hide DigestOf, Carried;
  }

  lemma JoinSlots(hub: Option<string>, positions: map<string, PositionData>, board: map<Field, real>)
    ensures var start := Join(Join(NO_DIGEST.(hub := hub), NO_DIGEST), NO_DIGEST);
      Join(Join(start, NO_DIGEST.(positions := positions)), NO_DIGEST.(board := board))
      == Digest([], hub, positions, board, [])
  {
    var start := NO_DIGEST.(hub := hub);
    JoinAssociates(start, NO_DIGEST, NO_DIGEST);
    assert Join(start, NO_DIGEST.(positions := positions)) == start.(positions := positions);
  }

  lemma SlotDigest(slot: seq<Event>)
    requires |slot| <= 1
    ensures DigestOf(slot) == if slot == [] then NO_DIGEST else One(slot[0])
  {
    if slot != [] {
      assert slot == [slot[0]];
      SingleDigest(slot[0]);
    }
  }

  /** Deferring an event into the slots is the same as appending it. */
  lemma DeferDigest(s: Slots, e: Event)
    requires Filed(s) && Deferred(e)
    ensures Alike(DigestOf(Flushed(Defer(s, e))), Join(DigestOf(Flushed(s)), One(e)))
    ensures Supersedes(s, e) ==> DigestOf(Flushed(Defer(s, e))).board == Join(DigestOf(Flushed(s)), One(e)).board
  {
    DeferFiled(s, e);
    DeferView(s, e);
    FlushDigest(s);
    FlushDigest(Defer(s, e));
    PlusNone(BoardOf(s.equity));
    OneDeferred(e);
    hide DigestOf, Flushed, Filed, PositionsFiled, Defer, HubOf, BoardOf, Carried, One, Deferred, Join, Alike;
    hide Supersedes;
    SlotJoin(DigestOf(Flushed(Defer(s, e))), DigestOf(Flushed(s)), One(e));
  }

  lemma SlotJoin(now: Digest, was: Digest, one: Digest)
    requires now.ledger == was.ledger == one.ledger == [] && now.status == was.status == one.status == []
    requires now.hub == (if one.hub.Some? then one.hub else was.hub) && now.positions == was.positions + one.positions
    ensures Alike(now, Join(was, one)) && Join(was, one).board == was.board + one.board
  {
    assert [] + one.ledger == one.ledger && [] + one.status == one.status;
  }

  lemma OneDeferred(e: Event)
    requires Deferred(e)
    ensures One(e).ledger == [] && One(e).status == []
    ensures One(e).hub == if e.HubEvent? then Some(e.hub) else None
    ensures One(e).board == if e.EquityEvent? then Carried(e.equity) else map[]
  {
    hide Carried;
  }

  lemma PlusOne<K, V>(m: map<K, V>, k: K, v: V)
    ensures m + map[k := v] == m[k := v]
  {
  }

  lemma PlusNone<K, V>(m: map<K, V>)
    ensures m + map[] == m == map[] + m
  {
  }

  /** What deferring an event does to the contents of the slots. */
  lemma DeferView(s: Slots, e: Event)
    requires Filed(s) && Deferred(e)
    ensures Filed(Defer(s, e))
    ensures HubOf(Defer(s, e).hub) == if e.HubEvent? then Some(e.hub) else HubOf(s.hub)
    ensures DigestOf(Defer(s, e).positions).positions == DigestOf(s.positions).positions + One(e).positions
    ensures BoardOf(Defer(s, e).equity) == if e.EquityEvent? then Carried(e.equity) else BoardOf(s.equity)
    ensures e.EquityEvent? && Supersedes(s, e) ==> BoardOf(s.equity) + Carried(e.equity) == Carried(e.equity)
  {
    DeferFiled(s, e);
    OneParts(e);
    hide DigestOf, Flushed, PositionsFiled, SetPosition, Carried, One;
    var d := DigestOf(s.positions).positions;
    if HasRow(e) {
      SetPositionDigest(s.positions, e);
      PlusOne(d, e.position.symbol, e.position);
    } else {
      PlusNone(d);
    }
    if e.EquityEvent? && Supersedes(s, e) {
      CoveringOverride(BoardOf(s.equity), Carried(e.equity));
    }
  }

  lemma CoveringOverride(a: map<Field, real>, b: map<Field, real>)
    requires a.Keys <= b.Keys
    ensures a + b == b
  {
  }

  /** The payload carries every field of the one it replaces. */
  predicate Supersedes(s: Slots, e: Event) {
    e.EquityEvent? && s.equity != [] && s.equity[0].EquityEvent? ==>
      Carried(s.equity[0].equity).Keys <= Carried(e.equity).Keys
  }

  /** No equity payload replaced inside the batch carries a field that its
      replacement lacks. */
  ghost predicate Covered(events: seq<Event>) {
    events != [] ==>
      var init, e := events[..|events| - 1], events[|events| - 1];
      Covered(init) && Supersedes(Run(init).1, e)
  }

  lemma {:induction false} RunDigest(events: seq<Event>)
    ensures var (out, slots) := Run(events);
      && Alike(DigestOf(out + Flushed(slots)), DigestOf(events))
      && (Covered(events) ==> DigestOf(out + Flushed(slots)) == DigestOf(events))
    decreases |events|
  {
    if events == [] {
      assert [] + Flushed(EMPTY) == [];
    } else {
      var init, e := events[..|events| - 1], events[|events| - 1];
      var (out, slots) := Run(init);
      RunDigest(init);
      hide One, Flushed, Join, Alike, Filed, Supersedes, Defer, Deferred;
      if Deferred(e) {
        DeferFiled(slots, e);
        DeferStep(out, slots, DigestOf(init), e);
      } else {
        FlushStep(out, slots, DigestOf(init), e);
      }
    }
  }

  lemma DeferStep(out: seq<Event>, slots: Slots, target: Digest, e: Event)
    requires Filed(slots) && Deferred(e) && Alike(DigestOf(out + Flushed(slots)), target)
    ensures var now := DigestOf(out + Flushed(Defer(slots, e)));
      && Alike(now, Join(target, One(e)))
      && (Supersedes(slots, e) && DigestOf(out + Flushed(slots)) == target ==> now == Join(target, One(e)))
  {
    DeferDigest(slots, e);
    DeferFiled(slots, e);
    hide One, Flushed, Join, Alike, Defer, Filed, Supersedes, Deferred, DigestOf;
    DigestConcat(out, Flushed(slots));
    DigestConcat(out, Flushed(Defer(slots, e)));
    var d, a, b := DigestOf(out), DigestOf(Flushed(Defer(slots, e))), Join(DigestOf(Flushed(slots)), One(e));
    JoinAssociates(d, DigestOf(Flushed(slots)), One(e));
    AlikeJoins(a, b, d);
    AlikeJoins(DigestOf(out + Flushed(slots)), target, One(e));
    AlikeChains(Join(d, a), Join(d, b), Join(target, One(e)));
    AlikeAndBoard(a, b);
  }

  lemma FlushStep(out: seq<Event>, slots: Slots, target: Digest, e: Event)
    requires Filed(slots) && Alike(DigestOf(out + Flushed(slots)), target)
    ensures var now := DigestOf(out + Flushed(slots) + [e] + Flushed(EMPTY));
      && Alike(now, Join(target, One(e)))
      && (DigestOf(out + Flushed(slots)) == target ==> now == Join(target, One(e)))
  {
    assert out + Flushed(slots) + [e] + Flushed(EMPTY) == out + Flushed(slots) + [e];
    SingleDigest(e);
    hide One, Flushed, Join, Alike, Filed, DigestOf;
    DigestConcat(out + Flushed(slots), [e]);
    AlikeJoins(DigestOf(out + Flushed(slots)), target, One(e));
  }

  lemma AlikeJoins(a: Digest, b: Digest, c: Digest)
    requires Alike(a, b)
    ensures Alike(Join(a, c), Join(b, c)) && Alike(Join(c, a), Join(c, b))
  {
  }

  lemma AlikeChains(a: Digest, b: Digest, c: Digest)
    requires Alike(a, b) && Alike(b, c)
    ensures Alike(a, c)
  {
  }

  lemma AlikeAndBoard(a: Digest, b: Digest)
    ensures Alike(a, b) && a.board == b.board ==> a == b
  {
  }

  lemma CoalescedDigest(events: seq<Event>)
    ensures Alike(DigestOf(Coalesced(events)), DigestOf(events))
    ensures Covered(events) ==> DigestOf(Coalesced(events)) == DigestOf(events)
  {
    RunDigest(events);
  }

  // --- The reducer follows the digest -------------------------------------------------------

  ghost function BookedAll(l: Ledger, pending: PendingMap, events: seq<Event>): (Ledger, PendingMap)
    decreases |events|
  {
    if events == [] then (l, pending)
    else
      var (before, waiting) := BookedAll(l, pending, events[..|events| - 1]);
      Booked(before, waiting, events[|events| - 1])
  }

  /** The rows shown for one symbol. */
  ghost function ForSymbol(ps: seq<Position>, symbol: string): seq<Position> {
    if ps == [] then []
    else
      ForSymbol(ps[..|ps| - 1], symbol) + if ps[|ps| - 1].symbol == symbol then [ps[|ps| - 1]] else []
  }

  ghost function ShownAll(v: Session, ds: seq<StatusData>): Session
    decreases |ds|
  {
    if ds == [] then v else StatusShown(ShownAll(v, ds[..|ds| - 1]), ds[|ds| - 1])
  }

  ghost predicate HasRow(e: Event) { e.PositionEvent? && e.position.symbol != "" }

  /** How one event moves each part of the digest. */
  lemma DigestStep(events: seq<Event>)
    requires events != []
    ensures var d, e, next := DigestOf(events[..|events| - 1]), events[|events| - 1], DigestOf(events);
      && next.ledger == (if ForLedger(e) then d.ledger + [e] else d.ledger)
      && next.hub == (if e.HubEvent? then Some(e.hub) else d.hub)
      && next.positions == (if HasRow(e) then d.positions[e.position.symbol := e.position] else d.positions)
      && next.board == (if e.EquityEvent? then d.board + Carried(e.equity) else d.board)
      && next.status == (if e.StatusEvent? && !Deferred(e) then d.status + [e.status] else d.status)
  {
    hide *;
    var d, e := DigestOf(events[..|events| - 1]), events[|events| - 1];
    DigestUnfolds(events);
    OneParts(e);
    JoinParts(d, One(e));
    PlusNone(d.positions);
    PlusNone(d.board);
    if HasRow(e) {
      PlusOne(d.positions, e.position.symbol, e.position);
    }
    assert d.ledger + [] == d.ledger && d.status + [] == d.status;
  }

  lemma DigestUnfolds(events: seq<Event>)
    requires events != []
    ensures DigestOf(events) == Join(DigestOf(events[..|events| - 1]), One(events[|events| - 1]))
  {
  }

  lemma JoinParts(a: Digest, b: Digest)
    ensures var j := Join(a, b);
      && j.ledger == a.ledger + b.ledger && j.hub == (if b.hub.Some? then b.hub else a.hub)
      && j.positions == a.positions + b.positions && j.board == a.board + b.board && j.status == a.status + b.status
  {
  }

  lemma OneParts(e: Event)
    ensures One(e).ledger == (if ForLedger(e) then [e] else [])
    ensures One(e).hub == (if e.HubEvent? then Some(e.hub) else None)
    ensures HasRow(e) ==> e.PositionEvent? && One(e).positions == map[e.position.symbol := e.position]
    ensures !HasRow(e) ==> One(e).positions == map[]
    ensures One(e).board == (if e.EquityEvent? then Carried(e.equity) else map[])
    ensures One(e).status == (if e.StatusEvent? && !Deferred(e) then [e.status] else [])
  {
    hide Carried;
  }

  lemma EquityTouches<R>(shell: Shell<R>, s: Stream<R>, p: EquityPayload)
    requires MarkDerived(s.positions)
    ensures var next := EquityShown(shell, s, p);
      && next.ledger == s.ledger && next.hub == s.hub && next.view == s.view && next.board == s.board + Carried(p)
      && next.positions == s.positions
  {
    assert Normalized(s.positions) == s.positions;
  }

  lemma DisplayedMarked(ps: seq<Position>, d: PositionData)
    requires MarkDerived(ps)
    ensures MarkDerived(Displayed(ps, d))
  {
    WithoutMarked(ps, d.symbol);
  }

  lemma {:induction false} WithoutMarked(ps: seq<Position>, symbol: string)
    ensures forall p :: p in Without(ps, symbol) ==> p in ps
  {
    if ps != [] {
      WithoutMarked(ps[..|ps| - 1], symbol);
    }
  }

  /** How one event moves each part of the state. */
  lemma ReducedStep<R>(shell: Shell<R>, s: Stream<R>, pending: PendingMap, e: Event)
    requires MarkDerived(s.positions)
    ensures var (next, after) := Reduced(shell, s, pending, e);
      && (next.ledger, after) == (if ForLedger(e) then Booked(s.ledger, pending, e) else (s.ledger, pending))
      && next.hub == (if e.HubEvent? then Some(e.hub) else s.hub)
      && next.board == (if e.EquityEvent? then s.board + Carried(e.equity) else s.board)
      && next.positions == (if e.PositionEvent? then Displayed(s.positions, e.position) else s.positions)
      && next.view == (if e.StatusEvent? then StatusShown(s.view, e.status) else s.view)
      && MarkDerived(next.positions)
  {
    if e.EquityEvent? {
      EquityTouches(shell, s, e.equity);
    }
    if e.PositionEvent? {
      DisplayedMarked(s.positions, e.position);
    }
    hide Booked, EquityShown, Displayed, Carried, StatusShown, MarkDerived, BreakerCodes, StatusRest;
  }

  /** Reducing a batch is applying its digest to each part of the state. */
  lemma {:induction false} ReducerFollowsDigest<R>(shell: Shell<R>, s: Stream<R>, pending: PendingMap,
                                                   events: seq<Event>)
    requires MarkDerived(s.positions)
    ensures var (next, after) := ReducedAll(shell, s, pending, events);
      var d := DigestOf(events);
      && (next.ledger, after) == BookedAll(s.ledger, pending, d.ledger)
      && next.hub == (if d.hub.Some? then d.hub else s.hub)
      && next.board == s.board + d.board
      && MarkDerived(next.positions)
    decreases |events|
  {
    if events == [] {
      hide Booked, Reduced;
      PlusNone(s.board);
    } else {
      var init, e := events[..|events| - 1], events[|events| - 1];
      hide Reduced, DigestOf, Booked, Displayed, StatusShown, Carried, Deferred, MarkDerived, BookedAll, ForLedger;
      hide HasRow;
      ReducerFollowsDigest(shell, s, pending, init);
      DigestStep(events);
      var (before, waiting) := ReducedAll(shell, s, pending, init);
      ReducedStep(shell, before, waiting, e);
      BookedAllSnoc(s.ledger, pending, DigestOf(init).ledger, e);
      if e.EquityEvent? {
        PlusAssociates(s.board, DigestOf(init).board, Carried(e.equity));
      }
    }
  }

  lemma BookedAllSnoc(l: Ledger, pending: PendingMap, events: seq<Event>, e: Event)
    ensures var (before, waiting) := BookedAll(l, pending, events);
      BookedAll(l, pending, events + [e]) == Booked(before, waiting, e)
  {
    assert (events + [e])[..|events|] == events;
    hide Booked;
  }

  lemma PlusAssociates<K, V>(a: map<K, V>, b: map<K, V>, c: map<K, V>)
    ensures (a + b) + c == a + (b + c)
  {
  }

  lemma ForSymbolSnoc(ps: seq<Position>, p: Position, symbol: string)
    ensures ForSymbol(ps + [p], symbol) == ForSymbol(ps, symbol) + if p.symbol == symbol then [p] else []
  {
    assert (ps + [p])[..|ps|] == ps;
  }

  lemma {:induction false} ForSymbolWithout(ps: seq<Position>, gone: string, symbol: string)
    ensures ForSymbol(Without(ps, gone), symbol) == if symbol == gone then [] else ForSymbol(ps, symbol)
  {
    if ps != [] {
      var init, p := ps[..|ps| - 1], ps[|ps| - 1];
      ForSymbolWithout(init, gone, symbol);
      if p.symbol == gone {
        assert Without(ps, gone) == Without(init, gone);
      } else {
        ForSymbolSnoc(Without(init, gone), p, symbol);
      }
    }
  }

  /** A position event replaces the rows of its symbol and no other. */
  lemma DisplayedForSymbol(ps: seq<Position>, d: PositionData, symbol: string)
    requires d.symbol != ""
    ensures ForSymbol(Displayed(ps, d), symbol) == if symbol == d.symbol then RowOf(d) else ForSymbol(ps, symbol)
  {
    ForSymbolWithout(ps, d.symbol, symbol);
    var others, row := Without(ps, d.symbol), RowOf(d);
    if row == [] {
      assert others + row == others;
    } else {
      assert row == [row[0]] && row[0].symbol == d.symbol;
      ForSymbolSnoc(others, row[0], symbol);
    }
    hide RowOf, Without, ForSymbol;
  }

  /** After any batch, coalesced or not, every row shows what it has to. */
  lemma RowsStayLawful<R>(shell: Shell<R>, s: Stream<R>, pending: PendingMap, events: seq<Event>)
    requires forall p :: p in s.positions ==> Lawful(p)
    ensures forall p :: p in ReducedAll(shell, s, pending, events).0.positions ==> Lawful(p)
  {
    hide Lawful, ReducedAll, MarkDerived;
    MarkDerivedIff(s.positions);
    ReducerFollowsDigest(shell, s, pending, events);
    MarkDerivedIff(ReducedAll(shell, s, pending, events).0.positions);
  }

  ghost function ShownFor(s: seq<Position>, d: Digest, symbol: string): seq<Position> {
    if symbol in d.positions then RowOf(d.positions[symbol]) else ForSymbol(s, symbol)
  }

  lemma {:induction false} PositionsFollow<R>(shell: Shell<R>, s: Stream<R>, pending: PendingMap, events: seq<Event>,
                                              symbol: string)
    requires MarkDerived(s.positions)
    ensures ForSymbol(ReducedAll(shell, s, pending, events).0.positions, symbol)
         == ShownFor(s.positions, DigestOf(events), symbol)
    ensures forall k :: k in DigestOf(events).positions ==> DigestOf(events).positions[k].symbol == k
    decreases |events|
  {
    if events != [] {
      hide Reduced, DigestOf, Booked, Displayed, StatusShown, Carried, Deferred, MarkDerived, BookedAll, ForSymbol;
      hide RowOf;
      var init, e := events[..|events| - 1], events[|events| - 1];
      PositionsFollow(shell, s, pending, init, symbol);
      ReducerFollowsDigest(shell, s, pending, init);
      DigestStep(events);
      var (before, waiting) := ReducedAll(shell, s, pending, init);
      ReducedStep(shell, before, waiting, e);
      if HasRow(e) {
        DisplayedForSymbol(before.positions, e.position, symbol);
      } else if e.PositionEvent? {
        NothingDisplayed(before.positions, e.position);
      }
    } else {
      hide Reduced, ForSymbol;
    }
  }

  lemma NothingDisplayed(ps: seq<Position>, d: PositionData)
    requires d.symbol == ""
    ensures Displayed(ps, d) == ps
  {
  }

  /** Health and latency events that carry nothing but their metrics. */
  predicate Bare(e: Event) {
    Health(e) || Latency(e) ==> e.status.status.None? && e.status.startup.None? && e.status.replay.None?
  }

  ghost predicate AllBare(events: seq<Event>) { forall i :: 0 <= i < |events| ==> Bare(events[i]) }

  lemma {:induction false} ViewFollows<R>(shell: Shell<R>, s: Stream<R>, pending: PendingMap, events: seq<Event>)
    requires MarkDerived(s.positions) && AllBare(events)
    ensures ReducedAll(shell, s, pending, events).0.view == ShownAll(s.view, DigestOf(events).status)
    decreases |events|
  {
    if events != [] {
      hide Reduced, DigestOf, Booked, Displayed, Carried, MarkDerived, BookedAll, StatusShown, AllBare, Deferred;
      var init, e := events[..|events| - 1], events[|events| - 1];
      assert AllBare(init) && Bare(e) by {
        BareParts(events);
      }
      ViewFollows(shell, s, pending, init);
      ReducerFollowsDigest(shell, s, pending, init);
      DigestStep(events);
      var (before, waiting) := ReducedAll(shell, s, pending, init);
      ReducedStep(shell, before, waiting, e);
      BareShowsNothing(before.view, e);
      var kept := DigestOf(init).status;
      if e.StatusEvent? && !Deferred(e) {
        assert (kept + [e.status])[..|kept|] == kept;
      }
    } else {
      hide Reduced;
    }
  }

  lemma BareParts(events: seq<Event>)
    requires events != [] && AllBare(events)
    ensures AllBare(events[..|events| - 1]) && Bare(events[|events| - 1])
  {
  }

  lemma BareShowsNothing(v: Session, e: Event)
    requires Bare(e)
    ensures e.StatusEvent? && Deferred(e) ==> StatusShown(v, e.status) == v
  {
  }

  // --- The theorem ----------------------------------------------------------------------------

  ghost predicate SamePositions(a: seq<Position>, b: seq<Position>) {
    forall symbol :: ForSymbol(a, symbol) == ForSymbol(b, symbol)
  }

  lemma {:induction false} MutedKeepsBare(events: seq<Event>)
    requires AllBare(events)
    ensures AllBare(Muted(events))
  {
    if events != [] {
      BareParts(events);
      MutedKeepsBare(events[..|events| - 1]);
    }
  }

  lemma {:induction false} RunKeepsBare(events: seq<Event>)
    requires AllBare(events)
    ensures AllBare(Run(events).0 + Flushed(Run(events).1))
    decreases |events|
  {
    if events != [] {
      var init, e := events[..|events| - 1], events[|events| - 1];
      BareParts(events);
      RunKeepsBare(init);
      var (out, slots) := Run(init);
      var was := out + Flushed(slots);
      var now := Run(events).0 + Flushed(Run(events).1);
      if Deferred(e) {
        DeferKeeps(slots, e);
      }
      assert forall x :: x in now ==> x == e || x in was;
      hide Run, Flushed, Bare;
      forall i | 0 <= i < |now| ensures Bare(now[i]) {
        assert now[i] in now;
        if now[i] != e {
          var j :| 0 <= j < |was| && was[j] == now[i];
        }
      }
    }
  }

  lemma DeferKeeps(s: Slots, e: Event)
    requires Filed(s) && Deferred(e)
    ensures forall x :: x in Flushed(Defer(s, e)) ==> x == e || x in Flushed(s)
  {
    if HasRow(e) {
      SetPositionFiled(s.positions, e);
    }
  }

  /** Reducing the coalesced batch and reducing the batch agree on the ledger (trades,
      realized trades, session and rolling statistics, orders, parents, history,
      breakers), the buffered closes, the hub and the positions of every symbol; on the
      session view when health and latency events carry nothing else; and on the KPI
      board up to the two override maps. */
  lemma {:induction false} CoalescingKeepsMeaning<R>(shell: Shell<R>, s: Stream<R>, pending: PendingMap,
                                                     events: seq<Event>)
    requires MarkDerived(s.positions)
    ensures var (a, waitingA) := Applied(shell, s, pending, events);
      var (b, waitingB) := ReducedAll(shell, s, pending, events);
      && a.ledger == b.ledger && waitingA == waitingB && a.hub == b.hub
      && SamePositions(a.positions, b.positions)
      && (AllBare(events) ==> a.view == b.view)
      && a.board == s.board + DigestOf(Coalesced(events)).board
      && b.board == s.board + DigestOf(events).board
  {
    var kept := Coalesced(events);
    CoalescedDigest(events);
    DigestWithoutLogs(kept);
    hide Coalesced, ReducedAll, DigestOf, BookedAll, MarkDerived, AllBare, RowOf, ForSymbol, Muted, Lines;
    hide SamePositions, ShownAll;
    ReducerFollowsDigest(shell, s, pending, events);
    ReducerFollowsDigest(shell, s, pending, Muted(kept));
    AlikeDigestsShowSame(shell, s, pending, events, Muted(kept));
    if AllBare(events) {
      CoalescedKeepsBare(events);
      ViewFollows(shell, s, pending, events);
      ViewFollows(shell, s, pending, Muted(kept));
    }
  }

  lemma CoalescedKeepsBare(events: seq<Event>)
    requires AllBare(events)
    ensures AllBare(Muted(Coalesced(events)))
  {
    RunKeepsBare(events);
    MutedKeepsBare(Coalesced(events));
  }

  lemma AlikeDigestsShowSame<R>(shell: Shell<R>, s: Stream<R>, pending: PendingMap, a: seq<Event>, b: seq<Event>)
    requires MarkDerived(s.positions) && Alike(DigestOf(a), DigestOf(b))
    ensures SamePositions(ReducedAll(shell, s, pending, b).0.positions, ReducedAll(shell, s, pending, a).0.positions)
  {
    hide ReducedAll, DigestOf, MarkDerived, RowOf, ForSymbol;
    forall symbol ensures ForSymbol(ReducedAll(shell, s, pending, b).0.positions, symbol)
                       == ForSymbol(ReducedAll(shell, s, pending, a).0.positions, symbol) {
      PositionsFollow(shell, s, pending, a, symbol);
      PositionsFollow(shell, s, pending, b, symbol);
    }
  }

  // --- When the KPI board agrees ---------------------------------------------------------------

  /** An equity payload is the last of its segment: another one follows only after an
      event that is not deferred. */
  ghost predicate Survives(events: seq<Event>, i: nat) {
    && i < |events| && events[i].EquityEvent?
    && forall j :: i < j < |events| && events[j].EquityEvent? ==> Interrupted(events, i, j)
  }

  ghost predicate Interrupted(events: seq<Event>, i: nat, j: nat)
    requires j <= |events|
  {
    exists k :: i < k < j && !Deferred(events[k])
  }

  ghost function Payloads(events: seq<Event>): set<nat> {
    set i: nat | i < |events| && events[i].EquityEvent?
  }

  ghost function Survivors(events: seq<Event>): set<nat> { set i: nat | i < |events| && Survives(events, i) }

  ghost function Sealed(events: seq<Event>): set<nat> {
    set i: nat | i < |events| && Survives(events, i) && Interrupted(events, i, |events|)
  }

  predicate Carries(e: Event, f: Field) { e.EquityEvent? && f in Carried(e.equity) }

  function ValueOf(e: Event, f: Field): real
    requires Carries(e, f)
  {
    Carried(e.equity)[f]
  }

  /** The last event of `s` that carries a field. */
  ghost predicate LastIn(events: seq<Event>, s: set<nat>, f: Field, j: nat) {
    && j in s && j < |events| && Carries(events[j], f)
    && forall k :: j < k < |events| && k in s ==> !Carries(events[k], f)
  }

  /** The board shows, field by field, the last event of `s` that carries it. */
  ghost predicate Shows(board: map<Field, real>, events: seq<Event>, s: set<nat>) {
    forall f ::
      && (f in board <==> exists j: nat :: LastIn(events, s, f, j))
      && forall j: nat :: LastIn(events, s, f, j) ==> f in board && board[f] == ValueOf(events[j], f)
  }

  lemma ShowsNothing()
    ensures Shows(map[], [], {})
  {
  }

  lemma LastInStays(events: seq<Event>, e: Event, s: set<nat>, f: Field, j: nat)
    requires forall i :: i in s ==> i < |events|
    ensures LastIn(events, s, f, j) <==> LastIn(events + [e], s, f, j)
    ensures LastIn(events, s, f, j) ==> j < |events| && (events + [e])[j] == events[j]
  {
    hide Carries;
  }

  lemma ShowsStays(board: map<Field, real>, events: seq<Event>, e: Event, s: set<nat>)
    requires Shows(board, events, s) && forall i :: i in s ==> i < |events|
    ensures Shows(board, events + [e], s)
  {
    hide Carries, LastIn;
    forall f, j: nat
      ensures LastIn(events, s, f, j) <==> LastIn(events + [e], s, f, j)
      ensures LastIn(events, s, f, j) ==> j < |events| && (events + [e])[j] == events[j]
    {
      LastInStays(events, e, s, f, j);
    }
  }

  /** One more payload in the set overrides what the board shows. */
  lemma ShowsMore(board: map<Field, real>, events: seq<Event>, e: Event, s: set<nat>)
    requires Shows(board, events, s) && e.EquityEvent? && forall i :: i in s ==> i < |events|
    ensures Shows(board + Carried(e.equity), events + [e], s + {|events|})
  {
    hide Carried;
    var n, all := |events|, events + [e];
    var now := board + Carried(e.equity);
    forall f
      ensures f in now <==> exists j: nat :: LastIn(all, s + {n}, f, j)
      ensures forall j: nat :: LastIn(all, s + {n}, f, j) ==> f in now && now[f] == ValueOf(all[j], f)
    {
      if f in Carried(e.equity) {
        assert all[n] == e && LastIn(all, s + {n}, f, n);
      } else {
        forall j: nat ensures LastIn(all, s + {n}, f, j) <==> LastIn(events, s, f, j) {
          LastInStays(events, e, s, f, j);
        }
      }
    }
  }

  lemma {:induction false} BoardShowsPayloads(events: seq<Event>)
    ensures Shows(DigestOf(events).board, events, Payloads(events))
  {
    hide *;
    if events == [] {
      NothingShown();
    } else {
      var init, e := events[..|events| - 1], events[|events| - 1];
      BoardShowsPayloads(init);
      DigestStep(events);
      assert init + [e] == events;
      PayloadsSnoc(init, e);
      if e.EquityEvent? {
        ShowsMore(DigestOf(init).board, init, e, Payloads(init));
      } else {
        ShowsStays(DigestOf(init).board, init, e, Payloads(init));
      }
    }
  }

  lemma NothingShown()
    ensures Shows(DigestOf([]).board, [], Payloads([]))
  {
    ShowsNothing();
    assert Payloads([]) == {};
  }

  lemma PayloadsSnoc(init: seq<Event>, e: Event)
    ensures Payloads(init + [e]) == if e.EquityEvent? then Payloads(init) + {|init|} else Payloads(init)
    ensures forall i :: i in Payloads(init) ==> i < |init|
  {
    assert (init + [e])[|init|] == e && forall i :: 0 <= i < |init| ==> (init + [e])[i] == init[i];
  }

  /** What one event does to the payloads that survive so far and to those that will
      whatever follows. */
  lemma SurvivorsStep(init: seq<Event>, e: Event)
    ensures var events := init + [e];
      && (e.EquityEvent? ==> Sealed(events) == Sealed(init) && Survivors(events) == Sealed(init) + {|init|})
      && (!e.EquityEvent? ==>
            && Survivors(events) == Survivors(init)
            && Sealed(events) == if Deferred(e) then Sealed(init) else Survivors(init))
  {
    var events, n := init + [e], |init|;
    assert events[n] == e && forall i :: 0 <= i < n ==> events[i] == init[i];
    forall i: nat, j: nat | i < j <= n ensures Interrupted(events, i, j) <==> Interrupted(init, i, j) {
      SamePrefix(init, events, i, j);
    }
    forall i: nat | i < n
      ensures Survives(events, i) <==> Survives(init, i) && (e.EquityEvent? ==> Interrupted(init, i, n))
      ensures Interrupted(events, i, n + 1) <==> Interrupted(init, i, n) || !Deferred(e)
    {
      SurvivesStep(init, e, i);
    }
    hide Interrupted, Deferred;
    assert e.EquityEvent? ==> Survives(events, n);
    if e.EquityEvent? {
      EquityIsDeferred(e);
      hide Survives;
      assert forall i :: i in Survivors(events) <==> i in Sealed(init) + {n};
      assert forall i :: i in Sealed(events) <==> i in Sealed(init);
    } else {
      hide Survives;
    }
  }

  lemma EquityIsDeferred(e: Event)
    requires e.EquityEvent?
    ensures Deferred(e)
  {
  }

  lemma SamePrefix(a: seq<Event>, b: seq<Event>, i: nat, j: nat)
    requires j <= |a| <= |b| && forall k :: 0 <= k < |a| ==> b[k] == a[k]
    ensures Interrupted(b, i, j) <==> Interrupted(a, i, j)
  {
    hide Deferred;
  }

  lemma SurvivesStep(init: seq<Event>, e: Event, i: nat)
    requires i < |init|
    ensures var events, n := init + [e], |init|;
      && (Survives(events, i) <==> Survives(init, i) && (e.EquityEvent? ==> Interrupted(init, i, n)))
      && (Interrupted(events, i, n + 1) <==> Interrupted(init, i, n) || !Deferred(e))
  {
    var events, n := init + [e], |init|;
    forall j: nat | i < j <= n ensures Interrupted(events, i, j) <==> Interrupted(init, i, j) {
      SamePrefix(init, events, i, j);
    }
    assert events[n] == e && forall k :: 0 <= k < n ==> events[k] == init[k];
    if !Deferred(e) {
      assert !Deferred(events[n]);
    }
    hide Deferred;
    forall k | i < k < n && !Deferred(events[k]) ensures Interrupted(init, i, n) {
      assert !Deferred(init[k]);
    }
  }

  /** The coalesced batch shows the payloads that survive. */
  lemma {:induction false} RunShowsSurvivors(events: seq<Event>)
    ensures var (out, slots) := Run(events);
      && Shows(DigestOf(out).board, events, Sealed(events))
      && Shows(DigestOf(out).board + BoardOf(slots.equity), events, Survivors(events))
    decreases |events|
  {
    if events == [] {
      ShowsNothing();
      assert Sealed([]) == {} && Survivors([]) == {};
      PlusNone(DigestOf([]).board);
    } else {
      var init, e := events[..|events| - 1], events[|events| - 1];
      assert init + [e] == events;
      RunShowsSurvivors(init);
      SurvivorsStep(init, e);
      var (out, slots) := Run(init);
      var was := DigestOf(out).board;
      OutStep(out, slots, e);
      hide Shows, DigestOf, Carried, Survives, Filed, Flushed, BoardOf, Deferred, PositionsFiled, Defer;
      if e.EquityEvent? {
        EquityIsDeferred(e);
        ShowsStays(was, init, e, Sealed(init));
        ShowsMore(was, init, e, Sealed(init));
      } else {
        ShowsStays(was, init, e, Sealed(init));
        ShowsStays(was + BoardOf(slots.equity), init, e, Survivors(init));
      }
    }
  }

  /** How one event moves the board of the output and the deferred payload. */
  lemma OutStep(out: seq<Event>, slots: Slots, e: Event)
    requires Filed(slots)
    ensures var (next, after) := Next(out, slots, e);
      if Deferred(e) then
        && next == out
        && BoardOf(after.equity) == if e.EquityEvent? then Carried(e.equity) else BoardOf(slots.equity)
      else
        && DigestOf(next).board == DigestOf(out).board + BoardOf(slots.equity)
        && DigestOf(next).board + BoardOf(after.equity) == DigestOf(next).board
  {
    if Deferred(e) {
      DeferView(slots, e);
    } else {
      var (next, after) := Next(out, slots, e);
      hide DigestOf, Flushed, Filed, PositionsFiled, Carried;
      FlushDigest(slots);
      DigestConcat(out, Flushed(slots));
      assert next[..|next| - 1] == out + Flushed(slots);
      DigestStep(next);
      PlusNone(DigestOf(next).board);
    }
  }

  lemma CoalescedShowsSurvivors(events: seq<Event>)
    ensures Shows(DigestOf(Coalesced(events)).board, events, Survivors(events))
  {
    if |events| <= 1 {
      BoardShowsPayloads(events);
      assert Survivors(events) == Payloads(events);
    } else {
      RunShowsSurvivors(events);
      var (out, slots) := Run(events);
      hide Shows, DigestOf, Filed, Flushed, BoardOf, Run, Survivors;
      FlushDigest(slots);
      DigestConcat(out, Flushed(slots));
    }
  }

  ghost predicate LastCarrier(events: seq<Event>, f: Field, i: nat) { LastIn(events, Payloads(events), f, i) }

  ghost predicate LastSurvivor(events: seq<Event>, f: Field, j: nat) { LastIn(events, Survivors(events), f, j) }

  /** The last payload that carries a field has the value that the last surviving one
      carries or, if none survives, that the board already shows. */
  ghost predicate KeepsField(board: map<Field, real>, events: seq<Event>, f: Field) {
    forall i: nat :: LastCarrier(events, f, i) ==>
      if exists j: nat :: LastSurvivor(events, f, j)
      then exists j: nat :: LastSurvivor(events, f, j) && ValueOf(events[j], f) == ValueOf(events[i], f)
      else f in board && board[f] == ValueOf(events[i], f)
  }

  lemma {:induction false} LastExists(events: seq<Event>, s: set<nat>, f: Field, j: nat)
    requires j in s && j < |events| && Carries(events[j], f)
    ensures exists i: nat :: LastIn(events, s, f, i)
    decreases |events| - j
  {
    hide Carries;
    if !LastIn(events, s, f, j) {
      var k :| j < k < |events| && k in s && Carries(events[k], f);
      LastExists(events, s, f, k);
    }
  }

  lemma LastIsUnique(events: seq<Event>, s: set<nat>, f: Field, i: nat, j: nat)
    requires LastIn(events, s, f, i) && LastIn(events, s, f, j)
    ensures i == j
  {
    hide Carries;
  }

  /** The condition on a field, with the payloads it speaks of at hand. */
  lemma KeepsFieldAt(board: map<Field, real>, events: seq<Event>, f: Field, i: nat)
    requires LastCarrier(events, f, i)
    ensures forall j: nat :: LastSurvivor(events, f, j) ==>
              (KeepsField(board, events, f) <==> ValueOf(events[j], f) == ValueOf(events[i], f))
    ensures (forall j: nat :: !LastSurvivor(events, f, j)) ==>
              (KeepsField(board, events, f) <==> f in board && board[f] == ValueOf(events[i], f))
  {
    forall k: nat | LastCarrier(events, f, k) ensures k == i {
      LastIsUnique(events, Payloads(events), f, i, k);
    }
    forall j: nat, k: nat | LastSurvivor(events, f, j) && LastSurvivor(events, f, k) ensures j == k {
      LastIsUnique(events, Survivors(events), f, j, k);
    }
    hide LastCarrier, LastSurvivor, Carries;
  }

  lemma FieldAgreesIff(board: map<Field, real>, events: seq<Event>, c: map<Field, real>, d: map<Field, real>, f: Field)
    requires Shows(c, events, Survivors(events)) && Shows(d, events, Payloads(events))
    ensures KeepsField(board, events, f) <==>
      ((f in board + c <==> f in board + d) && (f in board + d ==> (board + c)[f] == (board + d)[f]))
  {
    hide Carries, Survivors, Payloads, LastIn;
    CarriedBoth(events, c, d, f);
    if f in d {
      var i: nat :| LastIn(events, Payloads(events), f, i);
      assert LastCarrier(events, f, i);
      KeepsFieldAt(board, events, f, i);
      hide KeepsField;
      if f in c {
        var j: nat :| LastIn(events, Survivors(events), f, j);
        assert LastSurvivor(events, f, j);
      }
    }
  }

  lemma CarriedBoth(events: seq<Event>, c: map<Field, real>, d: map<Field, real>, f: Field)
    requires Shows(c, events, Survivors(events)) && Shows(d, events, Payloads(events))
    ensures f in c ==> f in d
  {
    hide Carries, Survivors, Payloads;
    SurvivorsAreSome(events);
    if f in c {
      var j: nat :| LastIn(events, Survivors(events), f, j);
      LastExists(events, Payloads(events), f, j);
    }
  }

  lemma SurvivingCarrier(board: map<Field, real>, events: seq<Event>, f: Field, i: nat)
    requires LastCarrier(events, f, i) && Survives(events, i)
    ensures KeepsField(board, events, f)
  {
    hide Carries, Survivors, Payloads, Survives;
    SurvivorsAreSome(events);
    assert LastSurvivor(events, f, i);
    KeepsFieldAt(board, events, f, i);
  }

  lemma SurvivorsAreSome(events: seq<Event>)
    ensures Survivors(events) <= Payloads(events)
    ensures forall i :: i in Payloads(events) && Survives(events, i) ==> i in Survivors(events)
  {
  }

  /** From a given board, the coalesced batch leaves the same board as the batch exactly
      when that holds for every field.  It does, in particular, for every field whose
      last carrier survives. */
  lemma BoardAgreesIff(board: map<Field, real>, events: seq<Event>)
    ensures board + DigestOf(Coalesced(events)).board == board + DigestOf(events).board
       <==> forall f :: KeepsField(board, events, f)
    ensures forall f, i: nat :: LastCarrier(events, f, i) && Survives(events, i) ==> KeepsField(board, events, f)
  {
    var c, d := DigestOf(Coalesced(events)).board, DigestOf(events).board;
    BoardShowsPayloads(events);
    CoalescedShowsSurvivors(events);
    hide *;
    forall f ensures KeepsField(board, events, f) <==>
      ((f in board + c <==> f in board + d) && (f in board + d ==> (board + c)[f] == (board + d)[f]))
    {
      FieldAgreesIff(board, events, c, d, f);
    }
    forall f, i: nat | LastCarrier(events, f, i) && Survives(events, i) ensures KeepsField(board, events, f) {
      SurvivingCarrier(board, events, f, i);
    }
    if board + c != board + d {
      var f := SomeDifference(board + c, board + d);
      assert !KeepsField(board, events, f);
    }
  }

  /** Some payload that carries the field survives, and the last of these has the value
      of the last payload that carries it. */
  ghost predicate KeepsEverywhere(events: seq<Event>, f: Field) {
    forall i: nat :: LastCarrier(events, f, i) ==>
      exists j: nat :: LastSurvivor(events, f, j) && ValueOf(events[j], f) == ValueOf(events[i], f)
  }

  lemma EverywhereIsFromNothing(board: map<Field, real>, events: seq<Event>, f: Field)
    ensures KeepsEverywhere(events, f) <==> KeepsField(map[], events, f)
    ensures KeepsEverywhere(events, f) ==> KeepsField(board, events, f)
  {
    hide LastCarrier, LastSurvivor;
  }

  /** It does so from every board exactly when every field is kept everywhere. */
  lemma BoardAlwaysAgreesIff(events: seq<Event>)
    ensures (forall board: map<Field, real> ::
               board + DigestOf(Coalesced(events)).board == board + DigestOf(events).board)
       <==> forall f :: KeepsEverywhere(events, f)
  {
    var none: map<Field, real> := map[];
    hide *;
    BoardAgreesIff(none, events);
    forall f ensures KeepsEverywhere(events, f) <==> KeepsField(none, events, f) {
      EverywhereIsFromNothing(none, events, f);
    }
    if forall f :: KeepsEverywhere(events, f) {
      forall board: map<Field, real>
        ensures board + DigestOf(Coalesced(events)).board == board + DigestOf(events).board
      {
        BoardAgreesIff(board, events);
        forall f ensures KeepsField(board, events, f) {
          EverywhereIsFromNothing(board, events, f);
        }
      }
    }
  }

  lemma SomeDifference<K, V>(a: map<K, V>, b: map<K, V>) returns (k: K)
    requires a != b
    ensures (k in a <==> k !in b) || (k in a && k in b && a[k] != b[k])
  {
    if a.Keys == b.Keys {
      k :| k in a && a[k] != b[k];
    } else if j :| j in a && j !in b {
      k := j;
    } else {
      k :| k in b && k !in a;
    }
  }

  /** In particular it agrees when no replaced payload carries a field that its
      replacement lacks, as when every payload carries all five. */
  lemma BoardAgreesWhenCovered(events: seq<Event>)
    requires Covered(events)
    ensures DigestOf(Coalesced(events)).board == DigestOf(events).board
  {
    CoalescedDigest(events);
  }

  predicate FullPayload(e: Event) {
    e.EquityEvent? ==>
      && e.equity.equity.Some? && e.equity.unrealized.Some? && e.equity.realized.Some?
      && e.equity.gross.Some? && e.equity.net.Some?
  }

  lemma CarriesAll(e: Event)
    requires e.EquityEvent? && FullPayload(e)
    ensures forall p :: Carried(p).Keys <= Carried(e.equity).Keys
  {
    forall p ensures Carried(p).Keys <= Carried(e.equity).Keys {
      CarriedKeys(p, e.equity);
    }
  }

  lemma CarriedKeys(p: EquityPayload, full: EquityPayload)
    requires FullPayload(EquityEvent(full))
    ensures Carried(p).Keys <= Carried(full).Keys
  {
    forall f | f in Carried(p) ensures f in Carried(full) {
    }
  }

  lemma {:induction false} FullPayloadsCover(events: seq<Event>)
    requires forall i :: 0 <= i < |events| ==> FullPayload(events[i])
    ensures Covered(events)
    decreases |events|
  {
    if events != [] {
      var e := events[|events| - 1];
      FullPayloadsCover(events[..|events| - 1]);
      assert FullPayload(e);
      if e.EquityEvent? {
        CarriesAll(e);
      }
      hide FullPayload, Carried;
    }
  }

  /** A payload replaced by one with fewer fields takes its other fields along. */
  lemma PartialPayloadIsLost()
    ensures var first := EquityEvent(EquityPayload(Some(1.0), None, Some(5.0), None, None));
      var second := EquityEvent(EquityPayload(Some(2.0), None, None, None, None));
      && Realized in DigestOf([first, second]).board
      && Realized !in DigestOf(Coalesced([first, second])).board
  {
    var first := EquityEvent(EquityPayload(Some(1.0), None, Some(5.0), None, None));
    var second := EquityEvent(EquityPayload(Some(2.0), None, None, None, None));
    assert Realized in Carried(first.equity) && Realized !in Carried(second.equity);
    hide *;
    TwoPayloads(first, second);
    assert [first, second][..1] == [first];
    DigestStep([first, second]);
    SingleDigest(first);
    SingleDigest(second);
    OneParts(first);
    OneParts(second);
  }

  /** Of two payloads in a row the second one is left. */
  lemma TwoPayloads(first: Event, second: Event)
    requires first.EquityEvent? && second.EquityEvent?
    ensures Coalesced([first, second]) == [second]
  {
    var events := [first, second];
    assert events[..1] == [first] && [first][..0] == [];
    assert Run([]) == ([], EMPTY);
    assert Run([first]) == ([], EMPTY.(equity := [first]));
    assert Run(events) == ([], EMPTY.(equity := [second]));
  }

  // --- Idempotence and size -----------------------------------------------------------------

  lemma RunSnoc(a: seq<Event>, e: Event)
    ensures Run(a + [e]) == Next(Run(a).0, Run(a).1, e)
  {
    assert (a + [e])[..|a|] == a;
  }

  lemma RunOptional(a: seq<Event>, out: seq<Event>, s: Slots, slot: seq<Event>, after: Slots)
    requires Run(a) == (out, s) && Puts(s, slot, after)
    ensures Run(a + slot) == (out, after)
  {
    if slot == [] {
      assert a + slot == a;
    } else {
      assert slot == [slot[0]];
      RunSnoc(a, slot[0]);
    }
  }

  lemma {:induction false} SetNewPosition(ps: seq<Event>, e: Event)
    requires PositionsFiled(ps) && e.PositionEvent?
    requires forall i :: 0 <= i < |ps| ==> ps[i].PositionEvent? && ps[i].position.symbol != e.position.symbol
    ensures SetPosition(ps, e) == ps + [e]
  {
    if ps != [] {
      HeadApart(ps);
      hide PositionsFiled;
      SetNewPosition(ps[1..], e);
      assert ps + [e] == [ps[0]] + (ps[1..] + [e]);
    }
  }

  lemma {:induction false} RunPositions(a: seq<Event>, out: seq<Event>, s: Slots, k: nat)
    requires Filed(s) && k <= |s.positions| && Run(a) == (out, s.(positions := []))
    ensures Run(a + s.positions[..k]) == (out, s.(positions := s.positions[..k]))
  {
    hide Run;
    if k == 0 {
      assert a + s.positions[..0] == a && s.positions[..0] == [];
    } else {
      RunPositions(a, out, s, k - 1);
      var ps, e := s.positions[..k - 1], s.positions[k - 1];
      assert s.positions[..k] == ps + [e] && a + s.positions[..k] == (a + ps) + [e];
      NextPosition(s.positions, k - 1);
      RunSnoc(a + ps, e);
      hide PositionsFiled, SetPosition;
    }
  }

  lemma NextPosition(ps: seq<Event>, k: nat)
    requires PositionsFiled(ps) && k < |ps|
    ensures PositionsFiled(ps[..k]) && HasRow(ps[k]) && SetPosition(ps[..k], ps[k]) == ps[..k + 1]
  {
    assert ps[..k + 1] == ps[..k] + [ps[k]];
    SetNewPosition(ps[..k], ps[k]);
  }

  /** Feeding flushed slots back fills the same slots. */
  lemma RunFlushed(out: seq<Event>, s: Slots)
    requires Filed(s) && Run(out) == (out, EMPTY)
    ensures Run(out + Flushed(s)) == (out, s)
  {
    var s1 := EMPTY.(hub := s.hub);
    var s2 := s1.(health := s.health);
    var s3 := s2.(latency := s.latency);
    var s4 := s3.(positions := s.positions);
    hide Run, Flushed, Filed, Defer, Deferred, PositionsFiled, Puts;
    PutEach(s);
    FlushedInOrder(out, s);
    assert s4.(positions := []) == s3;
    assert s4.positions[..|s4.positions|] == s.positions;
    RunOptional(out, out, EMPTY, s.hub, s1);
    RunOptional(out + s.hub, out, s1, s.health, s2);
    RunOptional(out + s.hub + s.health, out, s2, s.latency, s3);
    RunPositions(out + s.hub + s.health + s.latency, out, s4, |s.positions|);
    RunOptional(out + s.hub + s.health + s.latency + s.positions, out, s4, s.equity, s);
  }

  lemma FlushedInOrder(out: seq<Event>, s: Slots)
    ensures out + Flushed(s) == out + s.hub + s.health + s.latency + s.positions + s.equity
  {
  }

  ghost predicate Puts(before: Slots, slot: seq<Event>, after: Slots) {
    && Filed(before) && |slot| <= 1 && (slot != [] ==> Deferred(slot[0]))
    && after == if slot == [] then before else Defer(before, slot[0])
  }

  /** Filling the slots one after the other. */
  lemma PutEach(s: Slots)
    requires Filed(s)
    ensures var s1 := EMPTY.(hub := s.hub);
      var s2 := s1.(health := s.health);
      var s3 := s2.(latency := s.latency);
      var s4 := s3.(positions := s.positions);
      Puts(EMPTY, s.hub, s1) && Puts(s1, s.health, s2) && Puts(s2, s.latency, s3) && Puts(s4, s.equity, s) && Filed(s4)
  {
    assert forall slot: seq<Event> :: |slot| == 1 ==> slot == [slot[0]];
  }

  lemma {:induction false} RunIsStable(events: seq<Event>)
    ensures Run(Run(events).0) == (Run(events).0, EMPTY)
    decreases |events|
  {
    if events != [] {
      var init, e := events[..|events| - 1], events[|events| - 1];
      RunIsStable(init);
      var (out, slots) := Run(init);
      if !Deferred(e) {
        RunFlushed(out, slots);
        RunSnoc(out + Flushed(slots), e);
      }
    }
  }

  /** Coalescing a coalesced batch changes nothing. */
  lemma CoalescingIsIdempotent(events: seq<Event>)
    ensures Coalesced(Coalesced(events)) == Coalesced(events)
  {
    if |events| > 1 {
      var (out, slots) := Run(events);
      RunIsStable(events);
      RunFlushed(out, slots);
    }
  }

  lemma {:induction false} CoalescingNeverGrows(events: seq<Event>)
    ensures |Run(events).0| + |Flushed(Run(events).1)| <= |events|
    ensures |Coalesced(events)| <= |events|
    decreases |events|
  {
    if events != [] {
      var e := events[|events| - 1];
      CoalescingNeverGrows(events[..|events| - 1]);
      if Deferred(e) {
        DeferFiled(Run(events[..|events| - 1]).1, e);
      }
      hide Flushed, Defer, Filed;
    }
  }
}
