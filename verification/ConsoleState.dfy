/** The live console's state and its event reducer. */
module ConsoleState {
  import opened Arithmetic
  import opened Collections
  import opened Enums
  import opened ParentClose

  const TRADE_CAP := 200
  const HISTORY_CAP := 100
  const BREAKER_CAP := 80
  const FLAT_SIZE := 0.000000000001 // 1e-12

  // --- Events ----------------------------------------------------------------------

  /** A loosely typed JSON number: missing or null, a number or a string.  The value
      is what Number() makes of it, None when that is not finite. */
  datatype Raw = Missing | Number(value: Option<real>) | Text(value: Option<real>, blank: bool)

  datatype PositionSide = Long | Short

  datatype PositionData = PositionData(
    symbol: string, qty: Raw, size: Raw, side: PositionSide, entry: Option<real>, mark: Option<real>)

  /** KPI fields an equity payload can carry. */
  datatype Field = Equity | Unrealized | OpenPnl | Realized | GrossNotional | NetNotional

  datatype EquityPayload = EquityPayload(
    equity: Option<real>, unrealized: Option<real>, realized: Option<real>, gross: Option<real>, net: Option<real>)

  datatype FillData = FillData(
    id: string, ts: string, symbol: string, side: Side, qty: real, price: real, action: Option<Action>,
    entryPrice: Option<real>, exitPrice: Option<real>, pnl: Option<real>, parentId: Option<ParentId>,
    strategyName: string, contributions: map<string, real>)

  datatype OrderRow = OrderRow(id: string, status: string, qty: real, filledQty: real)
  datatype ParentRow = ParentRow(parentId: ParentId, filledQty: real, vwapPrice: real)
  datatype Breaker = Breaker(code: string, target: string, state: string, detail: string)
  datatype Progress = Progress(phase: string, caption: string, done: int, total: int)
  datatype StatusKind = Plain | BookResync | SystemHealth | LatencyMetrics

  datatype StatusData = StatusData(
    status: Option<string>, uptime: Option<int>, startup: Option<Progress>, kind: StatusKind,
    clear: bool, resync: Option<Progress>, replay: Option<string>, metrics: string)

  datatype Event =
    | FillEvent(fill: FillData)
    | OrderEvent(order: OrderRow)
    | ParentEvent(parent: ParentRow)
    | ExecutionEvent(report: ParentRow)
    | PositionEvent(position: PositionData)
    | EquityEvent(equity: EquityPayload)
    | HubEvent(hub: string)
    | LogEvent(line: string)
    | StatusEvent(status: StatusData)
    | BreakerEvent(breaker: Breaker)
    | TickEvent

  // --- State -----------------------------------------------------------------------

  datatype Position = Position(
    symbol: string, side: PositionSide, size: real, entry: Option<real>, mark: Option<real>, unrealizedPnl: real)

  datatype Session = Session(
    status: string, uptimeSec: int, startup: Option<Progress>, bookResync: Option<Progress>, replay: Option<string>)

  /** Everything that only fills, orders, parents, executions and breakers change. */
  datatype Ledger = Ledger(
    trades: seq<Trade>, realized: seq<Trade>, session: Stats, rolling: Stats, orders: seq<OrderRow>,
    parents: seq<ParentRow>, history: seq<ParentRow>, activeBreakers: seq<Breaker>, breakerHistory: seq<Breaker>)

  /** `rest` stands for the equity curve, system health and hub log lines. */
  datatype Stream<R> = Stream(
    ledger: Ledger, positions: seq<Position>, board: map<Field, real>, hub: Option<string>,
    view: Session, logs: seq<string>, rest: R)

  /** How events act on `rest`; nothing is known about these functions. */
  datatype Shell<!R> = Shell(
    equity: (R, EquityPayload) -> R, equityQuiet: (R, EquityPayload) -> bool,
    hub: (R, string) -> R, health: (R, StatusData) -> R, latency: (R, StatusData) -> R,
    breakers: (R, seq<string>) -> R)

  // --- Positions -------------------------------------------------------------------

  /** markDerivedPositionPnl */
  function MarkPnl(side: PositionSide, size: real, entry: Option<real>, mark: Option<real>): real {
    if mark.Some? && mark.value > 0.0 && entry.Some? && entry.value > 0.0 && size > 0.0
    then Times(Times(mark.value - entry.value, size), if side.Short? then -1.0 else 1.0) else 0.0
  }

  function Marked(p: Position): Position { p.(unrealizedPnl := MarkPnl(p.side, p.size, p.entry, p.mark)) }

  function Normalized(ps: seq<Position>): seq<Position> {
    seq(|ps|, i requires 0 <= i < |ps| => Marked(ps[i]))
  }

  predicate IsZero(r: Raw) { r.Number? && r.value.Some? && Abs(r.value.value) < FLAT_SIZE }

  function SizeOf(d: PositionData): Option<real> {
    if !d.size.Missing? && !(d.size.Text? && d.size.blank) then d.size.value
    else if !d.qty.Missing? && d.qty.value.Some? then Some(Abs(d.qty.value.value))
    else Some(0.0)
  }

  /** The row a position event leaves for its symbol; none when it is flat. */
  function RowOf(d: PositionData): seq<Position> {
    if IsZero(d.qty) || IsZero(d.size) || SizeOf(d).None? || SizeOf(d).value < FLAT_SIZE then []
    else
      var size := SizeOf(d).value;
      [Position(d.symbol, d.side, size, d.entry, d.mark, MarkPnl(d.side, size, d.entry, d.mark))]
  }

  function Without(ps: seq<Position>, symbol: string): seq<Position> {
    if ps == [] then []
    else
      var init, last := ps[..|ps| - 1], ps[|ps| - 1];
      Without(init, symbol) + if last.symbol == symbol then [] else [last]
  }

  function Displayed(ps: seq<Position>, d: PositionData): seq<Position> {
    if d.symbol == "" then ps else Without(ps, d.symbol) + RowOf(d)
  }

  ghost predicate MarkDerived(ps: seq<Position>) { forall p :: p in ps ==> Marked(p) == p }

  /** What a row has to show: a long position is worth what it cost and its PnL, a short
      one brought what covering it costs and its PnL; without a price or a size, nothing. */
  ghost predicate Lawful(p: Position) {
    if p.mark.Some? && p.entry.Some? && p.mark.value > 0.0 && p.entry.value > 0.0 && p.size > 0.0 then
      var worth, cost := Times(p.size, p.mark.value), Times(p.size, p.entry.value);
      match p.side
      case Long => worth == cost + p.unrealizedPnl
      case Short => cost == worth + p.unrealizedPnl
    else p.unrealizedPnl == 0.0
  }

  lemma LawfulIff(p: Position)
    ensures Lawful(p) <==> Marked(p) == p
  {
    if p.mark.Some? && p.entry.Some? {
      var gain := Times(p.mark.value - p.entry.value, p.size);
      assert gain == Times(p.size, p.mark.value) - Times(p.size, p.entry.value);
      assert Times(gain, 1.0) == gain && Times(gain, -1.0) == -gain;
      hide Times;
    }
  }

  /** Rows are mark-derived exactly when each shows what it has to. */
  lemma MarkDerivedIff(ps: seq<Position>)
    ensures MarkDerived(ps) <==> forall p :: p in ps ==> Lawful(p)
  {
    forall p ensures Lawful(p) <==> Marked(p) == p {
      LawfulIff(p);
    }
    hide Lawful, Marked;
  }

  /** A position is shown exactly when its size, or without one its quantity, is 1e-12 or
      more, and with that size. */
  lemma RowMeaning(d: PositionData)
    ensures |RowOf(d)| <= 1 && forall p :: p in RowOf(d) ==>
      p.symbol == d.symbol && p.side == d.side && p.entry == d.entry && p.mark == d.mark && Lawful(p)
    ensures forall x :: d.size == Number(Some(x)) && d.qty.Missing? ==>
      (RowOf(d) == [] <==> x < FLAT_SIZE) && forall p :: p in RowOf(d) ==> p.size == x
    ensures forall q :: d.size.Missing? && d.qty == Number(Some(q)) ==>
      (RowOf(d) == [] <==> -FLAT_SIZE < q < FLAT_SIZE) && forall p :: p in RowOf(d) ==> p.size == Abs(q)
    ensures d.size.Missing? && d.qty.Missing? ==> RowOf(d) == []
    ensures forall q, x :: d.size == Number(Some(x)) && d.qty == Number(Some(q)) ==>
      (RowOf(d) == [] <==> x < FLAT_SIZE || -FLAT_SIZE < q < FLAT_SIZE) && forall p :: p in RowOf(d) ==> p.size == x
  {
    if RowOf(d) != [] {
      LawfulIff(RowOf(d)[0]);
    }
    hide MarkPnl, Lawful;
  }

  // --- KPI board -------------------------------------------------------------------

  const FIELDS := {Equity, Unrealized, OpenPnl, Realized, GrossNotional, NetNotional}

  /** The value a payload has for a KPI field; open PnL shows the unrealized one. */
  function ValueFor(p: EquityPayload, f: Field): Option<real> {
    match f
    case Equity => p.equity
    case Unrealized => p.unrealized
    case OpenPnl => p.unrealized
    case Realized => p.realized
    case GrossNotional => p.gross
    case NetNotional => p.net
  }

  /** The fields a payload overrides. */
  function Carried(p: EquityPayload): map<Field, real> {
    map f | f in FIELDS && ValueFor(p, f).Some? :: ValueFor(p, f).value
  }

  /** What each payload field sets on the board: the open PnL is the unrealized one. */
  lemma BoardMeaning(p: EquityPayload)
    ensures var c := Carried(p);
      && (Equity in c <==> p.equity.Some?) && (Equity in c ==> c[Equity] == p.equity.value)
      && (Unrealized in c <==> p.unrealized.Some?) && (Unrealized in c ==> c[Unrealized] == p.unrealized.value)
      && (OpenPnl in c <==> p.unrealized.Some?) && (OpenPnl in c ==> c[OpenPnl] == p.unrealized.value)
      && (Realized in c <==> p.realized.Some?) && (Realized in c ==> c[Realized] == p.realized.value)
      && (GrossNotional in c <==> p.gross.Some?) && (GrossNotional in c ==> c[GrossNotional] == p.gross.value)
      && (NetNotional in c <==> p.net.Some?) && (NetNotional in c ==> c[NetNotional] == p.net.value)
  {
  }

  // --- Session view ----------------------------------------------------------------

  function StatusBase(v: Session, d: StatusData): Session {
    if d.status.Some? then
      var starting := d.status.value == "starting";
      Session(d.status.value, if d.uptime.Some? then d.uptime.value else v.uptimeSec,
              if starting then (if d.startup.Some? then d.startup else v.startup) else None,
              if starting then None else v.bookResync, v.replay)
    else if d.startup.Some? then v.(startup := d.startup)
    else v
  }

  function StatusShown(v: Session, d: StatusData): Session {
    var next := StatusBase(v, d);
    if d.kind.BookResync? && d.clear then next.(bookResync := None)
    else if d.kind.BookResync? && d.resync.Some? then next.(bookResync := d.resync)
    else if d.replay.Some? then next.(replay := d.replay)
    else next
  }

  /** Start-up progress is shown only while the engine starts, book-resync progress only
      once it has, until it is cleared; and a replay summary stays. */
  lemma StatusMeaning(v: Session, d: StatusData)
    ensures var next := StatusShown(v, d);
      && next.status == (if d.status.Some? then d.status.value else v.status)
      && next.uptimeSec == (if d.status.Some? && d.uptime.Some? then d.uptime.value else v.uptimeSec)
      && (d.status.Some? && d.status.value != "starting" ==> next.startup.None?)
      && (d.status == Some("starting") ==> next.startup == if d.startup.Some? then d.startup else v.startup)
      && (d.status.None? ==> next.startup == if d.startup.Some? then d.startup else v.startup)
      && (d.kind.BookResync? && d.clear ==> next.bookResync.None?)
      && (d.kind.BookResync? && !d.clear && d.resync.Some? ==> next.bookResync == d.resync)
      && (!d.kind.BookResync? ==>
            && next.bookResync == (if d.status == Some("starting") then None else v.bookResync)
            && next.replay == if d.replay.Some? then d.replay else v.replay)
  {
  }

  // --- The ledger ------------------------------------------------------------------

  /** toTrade */
  function ToTrade(f: FillData): Trade {
    var action := if f.action.Some? then f.action.value else if f.exitPrice.Some? then Close else Open;
    Trade(f.id, f.ts, f.symbol, f.side, f.qty, f.price, action,
          Some(if f.entryPrice.Some? then f.entryPrice.value else f.price), f.exitPrice, f.pnl,
          f.strategyName, f.contributions)
  }

  predicate IsRealizedClose(t: Trade) { t.action.Close? && t.pnl.Some? }

  /** A fill realizes PnL if it carries any and closes: by its action, or lacking one, by
      having an exit price. */
  lemma WhatRealizes(f: FillData)
    ensures IsRealizedClose(ToTrade(f)) <==>
      && f.pnl.Some?
      && (f.action == Some(Close) || (f.action.None? && f.exitPrice.Some?))
  {
  }

  predicate Known(trades: seq<Trade>, id: string) { exists i :: 0 <= i < |trades| && trades[i].id == id }

  predicate Duplicate(l: Ledger, f: FillData) { f.id != "" && Known(l.trades, f.id) }

  ghost function RealizedWith(l: Ledger, t: Trade): Ledger {
    var realized := Appended(l.realized, t, TRADE_CAP);
    l.(realized := realized, rolling := Recount(realized))
  }

  ghost function FillBooked(l: Ledger, pending: PendingMap, f: FillData): (Ledger, PendingMap) {
    if Duplicate(l, f) then (l, pending)
    else
      var t := ToTrade(f);
      var listed := l.(trades := Appended(l.trades, t, TRADE_CAP));
      if !IsRealizedClose(t) then (listed, pending)
      else
        var bumped := listed.(session := Bumped(l.session, Pnl(t)));
        if f.parentId.Some? then (bumped, Accumulated(pending, f.parentId.value, t, Pnl(t)))
        else (RealizedWith(bumped, t), pending)
  }

  function OtherParents(ps: seq<ParentRow>, id: ParentId): seq<ParentRow> {
    if ps == [] then []
    else OtherParents(ps[..|ps| - 1], id) + if ps[|ps| - 1].parentId == id then [] else [ps[|ps| - 1]]
  }

  ghost function ExecutionBooked(l: Ledger, pending: PendingMap, p: ParentRow): (Ledger, PendingMap) {
    var moved := l.(parents := OtherParents(l.parents, p.parentId), history := Appended(l.history, p, HISTORY_CAP));
    var t := FinalTrade(pending, p.parentId);
    (if t.Some? then RealizedWith(moved, t.value) else moved, pending - {p.parentId})
  }

  predicate Terminal(status: string) { status in {"filled", "cancelled", "rejected", "expired"} }

  function OtherOrders(os: seq<OrderRow>, id: string): seq<OrderRow> {
    if os == [] then []
    else OtherOrders(os[..|os| - 1], id) + if os[|os| - 1].id == id then [] else [os[|os| - 1]]
  }

  function OrderBooked(l: Ledger, o: OrderRow): Ledger {
    l.(orders := OtherOrders(l.orders, o.id) + if Terminal(o.status) then [] else [o])
  }

  function OtherBreakers(bs: seq<Breaker>, code: string, target: Option<string>): seq<Breaker> {
    if bs == [] then []
    else
      var b := bs[|bs| - 1];
      OtherBreakers(bs[..|bs| - 1], code, target)
      + if b.code == code && (target.None? || b.target == target.value) then [] else [b]
  }

  function BreakerBooked(l: Ledger, b: Breaker): Ledger {
    var others := OtherBreakers(l.activeBreakers, b.code, Some(b.target));
    if b.state == "armed"
    then l.(activeBreakers := others,
            breakerHistory := Appended(OtherBreakers(l.breakerHistory, b.code, None), b, BREAKER_CAP))
    else l.(activeBreakers := OtherBreakers(others, b.code, None) + [b])
  }

  /** The events the ledger listens to. */
  predicate ForLedger(e: Event) {
    e.FillEvent? || e.OrderEvent? || e.ParentEvent? || e.ExecutionEvent? || e.BreakerEvent?
  }

  ghost function Booked(l: Ledger, pending: PendingMap, e: Event): (Ledger, PendingMap) {
    match e
    case FillEvent(f) => FillBooked(l, pending, f)
    case OrderEvent(o) => (OrderBooked(l, o), pending)
    case ParentEvent(p) => (l.(parents := OtherParents(l.parents, p.parentId) + [p]), pending)
    case ExecutionEvent(p) => ExecutionBooked(l, pending, p)
    case BreakerEvent(b) => (BreakerBooked(l, b), pending)
    case _ => (l, pending)
  }

  // --- The reducer -----------------------------------------------------------------

  /** Stand-in for toFixed(4) in the fingerprint. */
  function Rounded4(x: real): int { (x * 10000.0 + 0.5).Floor }

  predicate SameFingerprint(a: seq<Position>, b: seq<Position>) {
    |a| == |b| && forall i :: 0 <= i < |a| ==>
      a[i].(unrealizedPnl := 0.0) == b[i].(unrealizedPnl := 0.0)
      && Rounded4(a[i].unrealizedPnl) == Rounded4(b[i].unrealizedPnl)
  }

  /** Rows with the same fingerprint differ by less than a hundredth of a cent of PnL. */
  lemma FingerprintMeaning(a: seq<Position>, b: seq<Position>)
    ensures a == b ==> SameFingerprint(a, b)
    ensures SameFingerprint(a, b) ==> |a| == |b| && forall i :: 0 <= i < |a| ==>
      && a[i].symbol == b[i].symbol && a[i].side == b[i].side && a[i].size == b[i].size
      && a[i].entry == b[i].entry && a[i].mark == b[i].mark
      && Abs(a[i].unrealizedPnl - b[i].unrealizedPnl) < 0.0001
  {
    if SameFingerprint(a, b) {
      forall i | 0 <= i < |a|
        ensures && a[i].symbol == b[i].symbol && a[i].side == b[i].side && a[i].size == b[i].size
                && a[i].entry == b[i].entry && a[i].mark == b[i].mark
                && Abs(a[i].unrealizedPnl - b[i].unrealizedPnl) < 0.0001
      {
        var x, y := a[i].(unrealizedPnl := 0.0), b[i].(unrealizedPnl := 0.0);
        assert x == y && x.symbol == a[i].symbol && y.symbol == b[i].symbol;
        assert Rounded4(a[i].unrealizedPnl) == Rounded4(b[i].unrealizedPnl);
      }
    }
  }

  function EquityShown<R>(shell: Shell<R>, s: Stream<R>, p: EquityPayload): Stream<R> {
    var board, positions := s.board + Carried(p), Normalized(s.positions);
    if shell.equityQuiet(s.rest, p) && board == s.board && SameFingerprint(positions, s.positions) then s
    else s.(board := board, positions := positions, rest := shell.equity(s.rest, p))
  }

  function BreakerCodes(bs: seq<Breaker>): seq<string> {
    seq(|bs|, i requires 0 <= i < |bs| => bs[i].code)
  }

  function StatusRest<R>(shell: Shell<R>, r: R, d: StatusData): R {
    match d.kind
    case SystemHealth => shell.health(r, d)
    case LatencyMetrics => shell.latency(r, d)
    case _ => r
  }

  /** applyWsEvent as a function of the stream and the buffered closes. */
  ghost function Reduced<R>(shell: Shell<R>, s: Stream<R>, pending: PendingMap, e: Event): (Stream<R>, PendingMap) {
    if ForLedger(e) then
      var (ledger, after) := Booked(s.ledger, pending, e);
      var rest := if e.BreakerEvent? then shell.breakers(s.rest, BreakerCodes(ledger.activeBreakers)) else s.rest;
      (s.(ledger := ledger, rest := rest), after)
    else
      (match e
       case PositionEvent(d) => s.(positions := Displayed(s.positions, d))
       case EquityEvent(p) => EquityShown(shell, s, p)
       case HubEvent(h) => s.(hub := Some(h), rest := shell.hub(s.rest, h))
       case StatusEvent(d) => s.(view := StatusShown(s.view, d), rest := StatusRest(shell, s.rest, d))
       case LogEvent(line) => s.(logs := [line] + s.logs)
       case _ => s,
       pending)
  }

  ghost function ReducedAll<R>(shell: Shell<R>, s: Stream<R>, pending: PendingMap, events: seq<Event>)
    : (Stream<R>, PendingMap)
    decreases |events|
  {
    if events == [] then (s, pending)
    else
      var (before, waiting) := ReducedAll(shell, s, pending, events[..|events| - 1]);
      Reduced(shell, before, waiting, events[|events| - 1])
  }

  // --- The reducer as it is written ----------------------------------------------

  /** The "fill" case. */
  method ApplyFill(l: Ledger, f: FillData, closes: ParentCloses) returns (next: Ledger)
    modifies closes
    ensures (next, closes.pending) == FillBooked(l, old(closes.pending), f)
  {
    if f.id != "" && Known(l.trades, f.id) {
      return l;
    }
    hide MakeStats, Recount, Accumulated, Known;
    var t := ToTrade(f);
    var trades := Appended(l.trades, t, TRADE_CAP);
    if IsRealizedClose(t) && f.parentId.Some? {
      closes.AccumulateParentClose(f.parentId.value, t, Pnl(t));
      return l.(trades := trades, session := Bumped(l.session, Pnl(t)));
    }
    var realized, session, rolling := l.realized, l.session, l.rolling;
    if IsRealizedClose(t) {
      realized := Appended(realized, t, TRADE_CAP);
      session := Bumped(session, Pnl(t));
      rolling := RollingKpiFromRealized(realized);
    }
    next := l.(trades := trades, realized := realized, session := session, rolling := rolling);
  }

  /** The "execution" case. */
  method ApplyExecution(l: Ledger, p: ParentRow, closes: ParentCloses) returns (next: Ledger)
    modifies closes
    ensures (next, closes.pending) == ExecutionBooked(l, old(closes.pending), p)
  {
    hide MakeStats, Recount, FinalTrade;
    var working := OtherParents(l.parents, p.parentId);
    var history := Appended(l.history, p, HISTORY_CAP);
    var aggregated := closes.FinalizeParentCloseTrade(p.parentId);
    if aggregated.None? {
      return l.(parents := working, history := history);
    }
    var realized := Appended(l.realized, aggregated.value, TRADE_CAP);
    var rolling := RollingKpiFromRealized(realized);
    next := l.(parents := working, history := history, realized := realized, rolling := rolling);
  }

  method ApplyWsEvent<R>(shell: Shell<R>, prev: Stream<R>, e: Event, closes: ParentCloses) returns (next: Stream<R>)
    modifies closes
    ensures (next, closes.pending) == Reduced(shell, prev, old(closes.pending), e)
  {
    hide FillBooked, ExecutionBooked, BreakerBooked, OrderBooked, StatusShown, EquityShown, Displayed;
    match e
    case StatusEvent(d) =>
      next := prev.(view := StatusShown(prev.view, d), rest := StatusRest(shell, prev.rest, d));
    case EquityEvent(p) => next := EquityShown(shell, prev, p);
    case HubEvent(h) => next := prev.(hub := Some(h), rest := shell.hub(prev.rest, h));
    case PositionEvent(d) => next := prev.(positions := Displayed(prev.positions, d));
    case FillEvent(f) =>
      var ledger := ApplyFill(prev.ledger, f, closes);
      next := prev.(ledger := ledger);
    case OrderEvent(o) => next := prev.(ledger := OrderBooked(prev.ledger, o));
    case ParentEvent(p) =>
      var others := OtherParents(prev.ledger.parents, p.parentId);
      next := prev.(ledger := prev.ledger.(parents := others + [p]));
    case ExecutionEvent(p) =>
      var ledger := ApplyExecution(prev.ledger, p, closes);
      next := prev.(ledger := ledger);
    case LogEvent(line) => next := prev.(logs := [line] + prev.logs);
    case BreakerEvent(b) =>
      var ledger := BreakerBooked(prev.ledger, b);
      next := prev.(ledger := ledger, rest := shell.breakers(prev.rest, BreakerCodes(ledger.activeBreakers)));
    case TickEvent => next := prev;
  }
}
