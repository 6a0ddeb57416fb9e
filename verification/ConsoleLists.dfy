/** What the console's order, parent and breaker lists show after any sequence of
    events. */
module ConsoleLists {
  import opened Collections
  import opened ConsoleState
  import opened ParentClose

  /** The ledger after a sequence of events. */
  ghost function LedgerAfter<R>(shell: Shell<R>, s: Stream<R>, pending: PendingMap, events: seq<Event>): Ledger {
    ReducedAll(shell, s, pending, events).0.ledger
  }

  lemma LedgerSnoc<R>(shell: Shell<R>, s: Stream<R>, pending: PendingMap, events: seq<Event>)
    requires events != []
    ensures var init, e := events[..|events| - 1], events[|events| - 1];
      var (before, waiting) := ReducedAll(shell, s, pending, init);
      && before.ledger == LedgerAfter(shell, s, pending, init)
      && LedgerAfter(shell, s, pending, events) == Booked(before.ledger, waiting, e).0
  {
    hide FillBooked, ExecutionBooked, OrderBooked, BreakerBooked, Displayed, StatusShown, Normalized, Carried;
    hide SameFingerprint;
    var (before, waiting) := ReducedAll(shell, s, pending, events[..|events| - 1]);
    assert ReducedAll(shell, s, pending, events) == Reduced(shell, before, waiting, events[|events| - 1]);
  }

  // --- Working orders -------------------------------------------------------------

  /** The last report on an order. */
  ghost function LastOrder(events: seq<Event>, id: string): Option<OrderRow> {
    if events == [] then None
    else
      var e := events[|events| - 1];
      if e.OrderEvent? && e.order.id == id then Some(e.order) else LastOrder(events[..|events| - 1], id)
  }

  lemma {:induction false} OtherOrdersMembers(os: seq<OrderRow>, id: string)
    ensures forall o :: o in OtherOrders(os, id) <==> o in os && o.id != id
  {
    if os != [] {
      OtherOrdersMembers(os[..|os| - 1], id);
      assert os == os[..|os| - 1] + [os[|os| - 1]];
    }
  }

  lemma OrdersStep(l: Ledger, pending: PendingMap, e: Event)
    ensures forall o :: o in Booked(l, pending, e).0.orders <==>
              if e.OrderEvent? && e.order.id == o.id then o == e.order && !Ends(o.status) else o in l.orders
  {
    hide Recount, Accumulated, Known, FinalTrade, MakeStats, OtherBreakers, OtherOrders, OtherParents, Appended;
    if e.OrderEvent? {
      OtherOrdersMembers(l.orders, e.order.id);
    }
  }

  predicate Ends(status: string) {
    status == "filled" || status == "cancelled" || status == "rejected" || status == "expired"
  }

  /** An order is listed exactly while its last report does not end it, with that report;
      one that was not reported on stays as it was. */
  lemma {:induction false} OrdersShown<R>(shell: Shell<R>, s: Stream<R>, pending: PendingMap, events: seq<Event>)
    ensures forall o :: o in LedgerAfter(shell, s, pending, events).orders <==>
              match LastOrder(events, o.id)
              case Some(last) => o == last && !Ends(o.status)
              case None => o in s.ledger.orders
    decreases |events|
  {
    if events != [] {
      var init, e := events[..|events| - 1], events[|events| - 1];
      OrdersShown(shell, s, pending, init);
      LedgerSnoc(shell, s, pending, events);
      var (before, waiting) := ReducedAll(shell, s, pending, init);
      OrdersStep(before.ledger, waiting, e);
      hide Booked, ReducedAll, Ends;
    }
  }

  // --- Working parents ------------------------------------------------------------

  /** The last word on a parent: its row, or None once it is complete. */
  ghost function LastParent(events: seq<Event>, id: ParentId): Option<Option<ParentRow>> {
    if events == [] then None
    else
      var e := events[|events| - 1];
      if e.ParentEvent? && e.parent.parentId == id then Some(Some(e.parent))
      else if e.ExecutionEvent? && e.report.parentId == id then Some(None)
      else LastParent(events[..|events| - 1], id)
  }

  lemma {:induction false} OtherParentsMembers(ps: seq<ParentRow>, id: ParentId)
    ensures forall p :: p in OtherParents(ps, id) <==> p in ps && p.parentId != id
  {
    if ps != [] {
      OtherParentsMembers(ps[..|ps| - 1], id);
      assert ps == ps[..|ps| - 1] + [ps[|ps| - 1]];
    }
  }

  lemma ParentsStep(l: Ledger, pending: PendingMap, e: Event)
    ensures forall p :: p in Booked(l, pending, e).0.parents <==>
              if e.ParentEvent? && e.parent.parentId == p.parentId then p == e.parent
              else p in l.parents && !(e.ExecutionEvent? && e.report.parentId == p.parentId)
    ensures Booked(l, pending, e).0.history ==
              if e.ExecutionEvent? then Appended(l.history, e.report, 100) else l.history
  {
    hide Recount, Accumulated, Known, FinalTrade, MakeStats, OtherBreakers, OtherOrders, OtherParents, Appended;
    if e.ParentEvent? {
      OtherParentsMembers(l.parents, e.parent.parentId);
    } else if e.ExecutionEvent? {
      OtherParentsMembers(l.parents, e.report.parentId);
    }
  }

  /** A parent is listed as working exactly while its last event is not its completion. */
  lemma {:induction false} ParentsShown<R>(shell: Shell<R>, s: Stream<R>, pending: PendingMap, events: seq<Event>)
    ensures forall p :: p in LedgerAfter(shell, s, pending, events).parents <==>
              match LastParent(events, p.parentId)
              case Some(last) => last == Some(p)
              case None => p in s.ledger.parents
    decreases |events|
  {
    if events != [] {
      var init, e := events[..|events| - 1], events[|events| - 1];
      ParentsShown(shell, s, pending, init);
      LedgerSnoc(shell, s, pending, events);
      var (before, waiting) := ReducedAll(shell, s, pending, init);
      ParentsStep(before.ledger, waiting, e);
      hide Booked, ReducedAll;
    }
  }

  /** Completions, the latest first. */
  ghost function Completions(events: seq<Event>): seq<ParentRow> {
    if events == [] then []
    else
      var e := events[|events| - 1];
      (if e.ExecutionEvent? then [e.report] else []) + Completions(events[..|events| - 1])
  }

  function Newest<T>(s: seq<T>, n: nat): seq<T> { if |s| <= n then s else s[..n] }

  lemma NewestAppended<T>(s: seq<T>, x: T, n: nat)
    ensures Appended(Newest(s, n), x, n) == Newest([x] + s, n)
  {
    if |s| > n && n > 0 {
      assert ([x] + s[..n])[..n] == ([x] + s)[..n];
    }
  }

  /** The history shows the last hundred completions, the latest first. */
  lemma {:induction false} HistoryShown<R>(shell: Shell<R>, s: Stream<R>, pending: PendingMap, events: seq<Event>)
    requires |s.ledger.history| <= 100
    ensures LedgerAfter(shell, s, pending, events).history == Newest(Completions(events) + s.ledger.history, 100)
    decreases |events|
  {
    if events == [] {
      assert Completions(events) + s.ledger.history == s.ledger.history;
    } else {
      hide Booked, ReducedAll, Newest, Appended, LedgerAfter, Completions;
      var init, e := events[..|events| - 1], events[|events| - 1];
      HistoryShown(shell, s, pending, init);
      LedgerSnoc(shell, s, pending, events);
      var (before, waiting) := ReducedAll(shell, s, pending, init);
      ParentsStep(before.ledger, waiting, e);
      CompletionsSnoc(events, s.ledger.history);
      if e.ExecutionEvent? {
        NewestAppended(Completions(init) + s.ledger.history, e.report, 100);
      }
    }
  }

  lemma CompletionsSnoc(events: seq<Event>, older: seq<ParentRow>)
    requires events != []
    ensures var init, e := events[..|events| - 1], events[|events| - 1];
      Completions(events) + older ==
      if e.ExecutionEvent? then [e.report] + (Completions(init) + older) else Completions(init) + older
  {
  }

  // --- Breakers -------------------------------------------------------------------

  /** The breaker raised by event `k` was not taken down since: nothing else was raised
      under its code, and it was not re-armed for its target. */
  ghost predicate StandsSince(events: seq<Event>, k: nat, b: Breaker) {
    && k < |events| && events[k] == BreakerEvent(b) && b.state != "armed"
    && forall j :: k < j < |events| && events[j].BreakerEvent? && events[j].breaker.code == b.code ==>
         events[j].breaker.state == "armed" && events[j].breaker.target != b.target
  }

  ghost predicate Stands(events: seq<Event>, b: Breaker) { exists k: nat :: StandsSince(events, k, b) }

  lemma {:induction false} OtherBreakersMembers(bs: seq<Breaker>, code: string, target: Option<string>)
    ensures forall b :: b in OtherBreakers(bs, code, target) <==>
              b in bs && !(b.code == code && (target.None? || b.target == target.value))
  {
    if bs != [] {
      OtherBreakersMembers(bs[..|bs| - 1], code, target);
      assert bs == bs[..|bs| - 1] + [bs[|bs| - 1]];
    }
  }

  /** Does this event take the breaker down? */
  predicate TakesDown(e: Event, b: Breaker) {
    e.BreakerEvent? && e.breaker.code == b.code && (e.breaker.state == "armed" ==> e.breaker.target == b.target)
  }

  lemma BreakersStep(l: Ledger, pending: PendingMap, e: Event)
    ensures forall b :: b in Booked(l, pending, e).0.activeBreakers <==>
              || (e == BreakerEvent(b) && b.state != "armed")
              || (b in l.activeBreakers && !TakesDown(e, b))
  {
    hide Recount, Accumulated, Known, FinalTrade, MakeStats, OtherOrders, OtherParents, OtherBreakers, Appended;
    if e.BreakerEvent? {
      OtherBreakersMembers(l.activeBreakers, e.breaker.code, Some(e.breaker.target));
      OtherBreakersMembers(OtherBreakers(l.activeBreakers, e.breaker.code, Some(e.breaker.target)), e.breaker.code,
                           None);
    }
  }

  lemma StandsSnoc(events: seq<Event>, b: Breaker)
    requires events != []
    ensures var init, e := events[..|events| - 1], events[|events| - 1];
      Stands(events, b) <==> (e == BreakerEvent(b) && b.state != "armed") || (Stands(init, b) && !TakesDown(e, b))
  {
    var init, e := events[..|events| - 1], events[|events| - 1];
    if Stands(events, b) {
      var k: nat :| StandsSince(events, k, b);
      if k < |init| {
        assert StandsSince(init, k, b);
      }
    }
    if e == BreakerEvent(b) && b.state != "armed" {
      assert StandsSince(events, |init|, b);
    }
    if Stands(init, b) && !TakesDown(e, b) {
      var k: nat :| StandsSince(init, k, b);
      assert StandsSince(events, k, b);
    }
  }

  /** From a console without active breakers, exactly those are shown as active that were
      raised and not taken down since. */
  lemma {:induction false} BreakersShown<R>(shell: Shell<R>, s: Stream<R>, pending: PendingMap, events: seq<Event>)
    requires s.ledger.activeBreakers == []
    ensures forall b :: b in LedgerAfter(shell, s, pending, events).activeBreakers <==> Stands(events, b)
    decreases |events|
  {
    if events != [] {
      var init, e := events[..|events| - 1], events[|events| - 1];
      BreakersShown(shell, s, pending, init);
      LedgerSnoc(shell, s, pending, events);
      var (before, waiting) := ReducedAll(shell, s, pending, init);
      BreakersStep(before.ledger, waiting, e);
      hide Booked, ReducedAll, Stands, TakesDown;
      forall b ensures b in LedgerAfter(shell, s, pending, events).activeBreakers <==> Stands(events, b) {
        StandsSnoc(events, b);
      }
    }
  }
}
