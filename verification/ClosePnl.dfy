/** Where realized PnL goes in the console: session statistics, finalized closes
    and the buffer, over every sequence of events since a hydrate. */
module ClosePnl {
  import opened Arithmetic
  import opened Collections
  import opened ConsoleState
  import opened ParentClose

  /** The trade an event appends to the realized list: a close without a parent, or
      the trade of a completed parent. */
  function Realizes(l: Ledger, pending: PendingMap, e: Event): Option<Trade> {
    match e
    case FillEvent(f) =>
      if !Duplicate(l, f) && IsRealizedClose(ToTrade(f)) && f.parentId.None? then Some(ToTrade(f)) else None
    case ExecutionEvent(p) => FinalTrade(pending, p.parentId)
    case _ => None
  }

  function PnlOf(t: Option<Trade>): real { if t.Some? then Pnl(t.value) else 0.0 }

  function Loses(pending: PendingMap, e: Event): real {
    if e.ExecutionEvent? then LostBy(pending, e.report.parentId) else 0.0
  }

  /** The realized list changes by exactly the realized trade, and the rolling
      statistics are a recount of it whenever they are written. */
  lemma RealizedListFollows(l: Ledger, pending: PendingMap, e: Event)
    ensures var (next, _) := Booked(l, pending, e);
      match Realizes(l, pending, e)
      case Some(t) => next.realized == Appended(l.realized, t, TRADE_CAP) && next.rolling == Recount(next.realized)
      case None => next.realized == l.realized && next.rolling == l.rolling
  {
    hide Recount, OtherBreakers, OtherOrders, OtherParents, Accumulated, MakeStats, FinalTrade, Known;
  }

  /** A ledger with the sums of what was realized and lost on the way. */
  datatype Flow = Flow(ledger: Ledger, pending: PendingMap, realized: real, lost: real)

  ghost function Advanced(w: Flow, e: Event): Flow {
    var (ledger, pending) := Booked(w.ledger, w.pending, e);
    Flow(ledger, pending, w.realized + PnlOf(Realizes(w.ledger, w.pending, e)), w.lost + Loses(w.pending, e))
  }

  ghost function AdvancedAll(w: Flow, events: seq<Event>): Flow {
    if events == [] then w else Advanced(AdvancedAll(w, events[..|events| - 1]), events[|events| - 1])
  }

  /** Session net PnL minus everything accounted for. */
  ghost function Unaccounted(w: Flow): real {
    Net(w.ledger.session) - w.realized - PendingTotal(w.pending) - w.lost
  }

  lemma BumpAddsPnl(s: Stats, pnl: real)
    ensures Net(Bumped(s, pnl)) == Net(s) + pnl
  {
    hide Percent, Factor;
  }

  lemma StepConserves(w: Flow, e: Event)
    ensures Unaccounted(Advanced(w, e)) == Unaccounted(w)
  {
    hide Recount, OtherBreakers, OtherOrders, OtherParents, MakeStats, Known, Bumped, Net, PendingTotal, Accumulated;
    if e.FillEvent? && !Duplicate(w.ledger, e.fill) && IsRealizedClose(ToTrade(e.fill)) {
      var t := ToTrade(e.fill);
      BumpAddsPnl(w.ledger.session, Pnl(t));
      if e.fill.parentId.Some? {
        AccumulateAddsPnl(w.pending, e.fill.parentId.value, t, Pnl(t));
      }
    } else if e.ExecutionEvent? {
      FinalizeMovesTotal(w.pending, e.report.parentId);
      hide FinalTrade, LostBy;
    }
  }

  /** Over any events: the change of gross win minus gross loss is what was realized,
      what waits in the buffer and what was lost. */
  lemma {:induction false} ClosePnlConserved(w: Flow, events: seq<Event>)
    ensures Unaccounted(AdvancedAll(w, events)) == Unaccounted(w)
  {
    if events != [] {
      ClosePnlConserved(w, events[..|events| - 1]);
      StepConserves(AdvancedAll(w, events[..|events| - 1]), events[|events| - 1]);
      hide Advanced, Unaccounted;
    }
  }

  ghost function Kept(w: Flow): real { Net(w.ledger.session) - w.realized - PendingTotal(w.pending) }

  /** Without the lost part, an event keeps the equality exactly when it does not
      complete a parent whose closed quantity is not positive but whose PnL is not zero. */
  lemma StepKeepsIff(w: Flow, e: Event)
    ensures Kept(Advanced(w, e)) == Kept(w)
       <==> !(e.ExecutionEvent? && e.report.parentId in w.pending
              && w.pending[e.report.parentId].totalQty <= 0.0 && w.pending[e.report.parentId].totalPnl != 0.0)
  {
    StepConserves(w, e);
    hide Booked, PendingTotal, Net, Realizes;
  }

  ghost predicate PositiveFills(events: seq<Event>) {
    forall i :: 0 <= i < |events| && events[i].FillEvent? ==> events[i].fill.qty > 0.0
  }

  ghost predicate PositivePending(pending: PendingMap) {
    forall id :: id in pending ==> pending[id].totalQty > 0.0
  }

  lemma StepLosesNothing(w: Flow, e: Event)
    requires PositivePending(w.pending) && (e.FillEvent? ==> e.fill.qty > 0.0)
    ensures PositivePending(Advanced(w, e).pending) && Advanced(w, e).lost == w.lost
  {
    hide Recount, OtherBreakers, OtherOrders, OtherParents, MakeStats, Known, Bumped, Times;
  }

  /** With positive fill quantities nothing is lost: since the last hydrate, which
      clears the buffer, session net PnL moved by the PnL of all finalized and
      standalone closes plus everything still buffered. */
  lemma {:induction false} NothingLostOnPositiveFills(start: Ledger, events: seq<Event>)
    requires PositiveFills(events)
    ensures var w := AdvancedAll(Flow(start, map[], 0.0, 0.0), events);
      && w.lost == 0.0 && PositivePending(w.pending)
      && Net(w.ledger.session) - Net(start.session) == w.realized + PendingTotal(w.pending)
  {
    var w0 := Flow(start, map[], 0.0, 0.0);
    LostStaysZero(w0, events);
    ClosePnlConserved(w0, events);
    EmptyBuffer();
    hide AdvancedAll, Net, PendingTotal;
  }

  lemma EmptyBuffer()
    ensures PendingTotal(map[]) == 0.0
  {
    var none: PendingMap := map[];
    assert (map k | k in none :: none[k].totalPnl) == map[];
  }

  lemma {:induction false} LostStaysZero(w: Flow, events: seq<Event>)
    requires PositiveFills(events) && PositivePending(w.pending)
    ensures AdvancedAll(w, events).lost == w.lost && PositivePending(AdvancedAll(w, events).pending)
  {
    if events != [] {
      var init := events[..|events| - 1];
      assert PositiveFills(init);
      LostStaysZero(w, init);
      StepLosesNothing(AdvancedAll(w, init), events[|events| - 1]);
      hide Advanced;
    }
  }

  /** Rolling statistics stay a recount of the realized list once they are one. */
  lemma {:induction false} RollingStaysRecount(w: Flow, events: seq<Event>)
    requires w.ledger.rolling == Recount(w.ledger.realized)
    ensures var l := AdvancedAll(w, events).ledger; l.rolling == Recount(l.realized)
  {
    if events != [] {
      var init := events[..|events| - 1];
      RollingStaysRecount(w, init);
      var before := AdvancedAll(w, init);
      RealizedListFollows(before.ledger, before.pending, events[|events| - 1]);
      hide Booked, Recount, Realizes, Appended;
    }
  }

  /** A redelivered fill with an id changes nothing. */
  lemma RedeliveryIsIgnored(l: Ledger, pending: PendingMap, f: FillData)
    requires f.id != ""
    ensures var (once, buffered) := Booked(l, pending, FillEvent(f));
      Booked(once, buffered, FillEvent(f)) == (once, buffered)
  {
    hide Recount, MakeStats, Bumped, Accumulated;
    var (once, buffered) := Booked(l, pending, FillEvent(f));
    if !Duplicate(l, f) {
      assert once.trades[0].id == f.id;
    }
  }
}
