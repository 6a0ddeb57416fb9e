/** Average-cost position accounting of the offline fill simulator. */
module Simulator {
  import opened Arithmetic
  import opened Collections
  import opened Enums

  type Symbol = string

  datatype Action = Open | Close

  datatype Signal = Signal(symbol: Symbol, side: Side, qty: real, reduceOnly: bool)
  datatype SimFill = SimFill(symbol: Symbol, side: Side, qty: real, price: real, pnl: real, action: Action)

  const DUST := 0.000000000001   // 1e-12

  /** One symbol: signed quantity and average entry, absent when not recorded. */
  datatype Leg = Leg(qty: real, entry: Option<real>)

  const FLAT := Leg(0.0, None)

  /** An order with its slipped price; `qty` is already absolute. */
  datatype Order = Order(side: Side, qty: real, price: real, reduceOnly: bool)

  datatype Execution = Execution(side: Side, qty: real, price: real, pnl: real, action: Action)

  predicate Closes(leg: Leg, o: Order) {
    o.reduceOnly || (leg.qty > 0.0 && o.side.Sell?) || (leg.qty < 0.0 && o.side.Buy?)
  }

  /** Position left by a close, before the dust cut. */
  function AfterClose(leg: Leg, o: Order): real {
    var closeQty := Min(Abs(leg.qty), o.qty);
    if leg.qty > 0.0 then leg.qty - closeQty else leg.qty + closeQty
  }

  function EntryOr(leg: Leg, price: real): real {
    match leg.entry case Some(e) => e case None => price
  }

  /** Profit of buying `qty` at `paid` and selling it at `received`. */
  function Gain(received: real, paid: real, qty: real): real { (received - paid) * qty }

  function ClosePnl(leg: Leg, o: Order): real {
    var closeQty, entry := Min(Abs(leg.qty), o.qty), EntryOr(leg, o.price);
    if leg.qty > 0.0 then Gain(o.price, entry, closeQty) else Gain(entry, o.price, closeQty)
  }

  function Signed(side: Side, qty: real): real { if side.Buy? then qty else -qty }

  function WeightedMean(x: real, wx: real, y: real, wy: real): real
    requires wx + wy > 0.0
  {
    (wx * x + wy * y) / (wx + wy)
  }

  /** Average entry after adding to a position on its own side. */
  function Averaged(leg: Leg, o: Order): real {
    if Abs(leg.qty) + o.qty > 0.0 then WeightedMean(EntryOr(leg, o.price), Abs(leg.qty), o.price, o.qty)
    else EntryOr(leg, o.price)
  }

  /** The accounting of one fill, as the code branches. */
  function Execute(leg: Leg, o: Order): (Leg, Option<Execution>) {
    if o.qty <= 0.0 then (leg, None)
    else if Closes(leg, o) then
      var closeQty := Min(Abs(leg.qty), o.qty);
      if closeQty <= 0.0 then (leg, None)
      else
        var left := AfterClose(leg, o);
        (if Abs(left) < DUST then FLAT else leg.(qty := left),
         Some(Execution(o.side, closeQty, o.price, ClosePnl(leg, o), Close)))
    else
      var signed := Signed(o.side, o.qty);
      var sameSide := (leg.qty > 0.0 && signed > 0.0) || (leg.qty < 0.0 && signed < 0.0);
      (Leg(leg.qty + signed, Some(if sameSide then Averaged(leg, o) else o.price)),
       Some(Execution(o.side, o.qty, o.price, 0.0, Open)))
  }

  function SlippedPrice(mark: real, slippage: real, side: Side): real {
    if side.Buy? then mark * (1.0 + slippage) else mark * (1.0 - slippage)
  }

  class FillSimulator {
    const slippage: real
    var cash: real
    var positions: map<Symbol, real>
    var avgEntry: map<Symbol, real>
    var fills: seq<SimFill>

    constructor (initialEquity: real, slippageBps: real)
      ensures Valid() && cash == initialEquity && slippage == slippageBps / 10000.0
      ensures positions == map[] && fills == []
    {
      slippage := slippageBps / 10000.0;
      cash, positions, avgEntry, fills := initialEquity, map[], map[], [];
    }

    ghost function LegOf(symbol: Symbol): Leg
      reads this
    {
      LegIn(positions, avgEntry, symbol)
    }

    /** An average entry is recorded exactly for the symbols with a position. */
    ghost predicate Valid()
      reads this
    {
      && positions.Keys == avgEntry.Keys
      && forall s :: s in positions ==> positions[s] != 0.0
    }

    /** The closing branch of _fill_one. */
    method Close(symbol: Symbol, o: Order) returns (done: Option<Execution>)
      requires Valid() && o.qty > 0.0 && Closes(LegOf(symbol), o)
      modifies `cash, `positions, `avgEntry
      ensures Valid() && (LegOf(symbol), done) == Execute(old(LegOf(symbol)), o)
      ensures forall s :: s != symbol ==> LegOf(s) == old(LegOf(s))
      ensures cash == old(cash) + if done.Some? then done.value.pnl else 0.0
    {
      hide Gain;
      var pos := if symbol in positions then positions[symbol] else 0.0;
      ghost var leg := LegOf(symbol);
      var closeQty, pnl := Min(Abs(pos), o.qty), 0.0;
      if closeQty <= 0.0 {
        return None;
      }
      var entry := if symbol in avgEntry then avgEntry[symbol] else o.price;
      if pos > 0.0 {
        pnl := Gain(o.price, entry, closeQty);
        positions := positions[symbol := pos - closeQty];
      } else {
        pnl := Gain(entry, o.price, closeQty);
        positions := positions[symbol := pos + closeQty];
      }
      assert pnl == ClosePnl(leg, o) && positions[symbol] == AfterClose(leg, o);
      hide ClosePnl, AfterClose, Averaged;
      cash := cash + pnl;
      if Abs(positions[symbol]) < DUST {
        positions := positions - {symbol};
        avgEntry := avgEntry - {symbol};
      }
      done := Some(Execution(o.side, closeQty, o.price, pnl, Action.Close));
    }

    /** The opening branch of _fill_one. */
    method Open(symbol: Symbol, o: Order) returns (done: Option<Execution>)
      requires Valid() && o.qty > 0.0 && !Closes(LegOf(symbol), o)
      modifies `cash, `positions, `avgEntry
      ensures Valid() && (LegOf(symbol), done) == Execute(old(LegOf(symbol)), o)
      ensures forall s :: s != symbol ==> LegOf(s) == old(LegOf(s))
      ensures cash == old(cash) - Signed(o.side, Times(o.qty, o.price))
    {
      hide WeightedMean, ClosePnl, AfterClose, Times;
      var pos := if symbol in positions then positions[symbol] else 0.0;
      var signed := Signed(o.side, o.qty);
      var notional := Times(o.qty, o.price);
      if (pos > 0.0 && signed > 0.0) || (pos < 0.0 && signed < 0.0) {
        var total := Abs(pos) + o.qty;
        if total > 0.0 {
          avgEntry := avgEntry[symbol := WeightedMean(avgEntry[symbol], Abs(pos), o.price, o.qty)];
        }
      } else {
        avgEntry := avgEntry[symbol := o.price];
      }
      cash := if o.side.Buy? then cash - notional else cash + notional;
      positions := positions[symbol := pos + signed];
      done := Some(Execution(o.side, o.qty, o.price, 0.0, Action.Open));
    }

    method FillOne(sig: Signal, mark: real)
      requires Valid()
      modifies this
      ensures Valid()
      ensures var o := Order(sig.side, Abs(sig.qty), SlippedPrice(mark, slippage, sig.side), sig.reduceOnly);
        var (leg, done) := Execute(old(LegOf(sig.symbol)), o);
        && LegOf(sig.symbol) == leg
        && (forall s :: s != sig.symbol ==> LegOf(s) == old(LegOf(s)))
        && fills == old(fills) + FillsFor(sig.symbol, done) && cash == old(cash) + CashOf(FillsFor(sig.symbol, done))
    {
      hide SlippedPrice, ClosePnl, AfterClose, Averaged, Times, CashOf;
      var o := Order(sig.side, Abs(sig.qty), SlippedPrice(mark, slippage, sig.side), sig.reduceOnly);
      NoCash();
      if o.qty <= 0.0 {
        return;
      }
      var pos := if sig.symbol in positions then positions[sig.symbol] else 0.0;
      var done: Option<Execution>;
      if sig.reduceOnly || (pos > 0.0 && o.side.Sell?) || (pos < 0.0 && o.side.Buy?) {
        done := Close(sig.symbol, o);
      } else {
        done := Open(sig.symbol, o);
      }
      if done.Some? {
        CashOfOne(FillsFor(sig.symbol, done)[0]);
      }
      fills := fills + FillsFor(sig.symbol, done);
    }

    /** apply_signals, on signals already in (group, symbol) order: every symbol's leg
        and the totals of its new fills are those of its own orders, and the cash moves
        by the new fills.  So from no positions, and with reduce-only orders that oppose
        the position they meet, the fills satisfy the average-cost identities. */
    method ApplySignals(ordered: seq<Signal>, marks: map<Symbol, real>)
      requires Valid()
      modifies this
      ensures Valid() && old(fills) <= fills
      ensures var added := fills[|old(fills)|..];
        && Followed(old(positions), old(avgEntry), positions, avgEntry, added, ordered, marks, slippage)
        && cash == old(cash) + CashOf(added)
        && (old(positions) == map[] ==>
              forall s :: Identities(LegOf(s), TotalsOf(added, s), OrdersOf(ordered, marks, slippage, s)))
    {
      hide Execute, RunAccount, RunLeg, OrdersOf, Followed, OneMore, CashOf, Identities, TotalsOf, LegIn;
      StartFollowed(positions, avgEntry, marks, slippage);
      ghost var added: seq<SimFill> := [];
      NoCash();
      for i := 0 to |ordered|
        invariant Valid() && fills == old(fills) + added && cash == old(cash) + CashOf(added)
        invariant Followed(old(positions), old(avgEntry), positions, avgEntry, added, ordered[..i], marks, slippage)
      {
        var sig := ordered[i];
        ghost var before, p, e, f := ordered[..i], positions, avgEntry, fills;
        assert ordered[..i + 1] == before + [sig];
        ApplyOne(sig, marks);
        ghost var more := fills[|f|..];
        FollowedSnoc(old(positions), old(avgEntry), p, e, positions, avgEntry, added, more, before, sig, marks,
                     slippage);
        CashOfConcat(added, more);
        added := added + more;
      }
      assert ordered[..|ordered|] == ordered && fills[|old(fills)|..] == added;
      if old(positions) == map[] {
        FromNothing(old(positions), old(avgEntry), positions, avgEntry, added, ordered, marks, slippage);
      }
    }

    /** The loop body of apply_signals: a symbol without a positive mark is skipped. */
    method ApplyOne(sig: Signal, marks: map<Symbol, real>)
      requires Valid()
      modifies this
      ensures Valid() && old(fills) <= fills
      ensures var more := fills[|old(fills)|..];
        && OneMore(old(positions), old(avgEntry), positions, avgEntry, more, sig, marks, slippage)
        && cash == old(cash) + CashOf(more)
    {
      hide Execute;
      assert fills[|fills|..] == [];
      if sig.symbol in marks && marks[sig.symbol] > 0.0 {
        ghost var p, e, f := positions, avgEntry, fills;
        FillOne(sig, marks[sig.symbol]);
        assert forall s :: LegOf(s) == LegIn(positions, avgEntry, s) && old(LegOf(s)) == LegIn(p, e, s);
        hide CashOf;
        ghost var price := SlippedPrice(marks[sig.symbol], slippage, sig.side);
        ghost var o := Order(sig.side, Abs(sig.qty), price, sig.reduceOnly);
        ghost var done := Execute(LegIn(p, e, sig.symbol), o).1;
        assert fills[|f|..] == FillsFor(sig.symbol, done);
        forall s ensures TotalsOf(FillsFor(sig.symbol, done), s) == if s == sig.symbol then Delta(done) else NOTHING {
          TotalsOfOne(sig.symbol, done, s);
        }
      }
    }
  }

  // --- What the fills add up to ----------------------------------------------------

  function FillsFor(symbol: Symbol, done: Option<Execution>): seq<SimFill> {
    match done
    case None => []
    case Some(x) => [SimFill(symbol, x.side, x.qty, x.price, x.pnl, x.action)]
  }

  /** Signed quantity, money paid for it and profit. */
  datatype Totals = Totals(bought: real, paid: real, pnl: real)

  const NOTHING := Totals(0.0, 0.0, 0.0)

  function Plus(a: Totals, b: Totals): Totals { Totals(a.bought + b.bought, a.paid + b.paid, a.pnl + b.pnl) }

  function Delta(done: Option<Execution>): Totals {
    match done
    case None => NOTHING
    case Some(x) => Totals(Signed(x.side, x.qty), Signed(x.side, Times(x.qty, x.price)), x.pnl)
  }

  /** The totals of one symbol's fills. */
  ghost function TotalsOf(fills: seq<SimFill>, symbol: Symbol): Totals {
    if fills == [] then NOTHING
    else
      var f := fills[|fills| - 1];
      var rest := TotalsOf(fills[..|fills| - 1], symbol);
      if f.symbol == symbol
      then Plus(rest, Totals(Signed(f.side, f.qty), Signed(f.side, Times(f.qty, f.price)), f.pnl))
      else rest
  }

  /** What fills do to the cash: a close pays its profit, an opening its notional. */
  ghost function CashOf(fills: seq<SimFill>): real {
    if fills == [] then 0.0 else CashOf(fills[..|fills| - 1]) + CashMove(fills[|fills| - 1])
  }

  function CashMove(f: SimFill): real {
    if f.action.Close? then f.pnl else -Signed(f.side, Times(f.qty, f.price))
  }

  lemma NoCash()
    ensures CashOf([]) == 0.0
  {
  }

  lemma CashOfOne(f: SimFill)
    ensures CashOf([f]) == CashMove(f)
  {
    assert [f][..0] == [];
  }

  lemma {:induction false} CashOfConcat(a: seq<SimFill>, b: seq<SimFill>)
    ensures CashOf(a + b) == CashOf(a) + CashOf(b)
  {
    if b == [] {
      assert a + b == a;
    } else {
      CashOfConcat(a, b[..|b| - 1]);
      assert (a + b)[..|a + b| - 1] == a + b[..|b| - 1];
    }
  }

  lemma TotalsOfOne(symbol: Symbol, done: Option<Execution>, s: Symbol)
    ensures TotalsOf(FillsFor(symbol, done), s) == if s == symbol then Delta(done) else NOTHING
  {
    if done.Some? {
      assert FillsFor(symbol, done)[..0] == [];
    }
  }

  lemma TotalsOfConcat(a: seq<SimFill>, b: seq<SimFill>, s: Symbol)
    requires |b| <= 1
    ensures TotalsOf(a + b, s) == Plus(TotalsOf(a, s), TotalsOf(b, s))
  {
    if b == [] {
      assert a + b == a;
    } else {
      assert (a + b)[..|a|] == a && b[..0] == [];
    }
  }

  ghost function LegIn(positions: map<Symbol, real>, avgEntry: map<Symbol, real>, symbol: Symbol): Leg {
    Leg(if symbol in positions then positions[symbol] else 0.0,
        if symbol in avgEntry then Some(avgEntry[symbol]) else None)
  }

  /** Every symbol's leg moved by the orders the signals became for it, one after
      the other, and by nothing else; and its fills add up to what they executed. */
  ghost predicate Followed(p0: map<Symbol, real>, e0: map<Symbol, real>, p: map<Symbol, real>, e: map<Symbol, real>,
                           added: seq<SimFill>, signals: seq<Signal>, marks: map<Symbol, real>, slippage: real) {
    forall s ::
      var a := RunLeg(LegIn(p0, e0, s), OrdersOf(signals, marks, slippage, s));
      LegIn(p, e, s) == a.leg && TotalsOf(added, s) == Totals(a.bought, a.paid, a.pnl)
  }

  ghost function After(leg: Leg, orders: seq<Order>): (Leg, Option<Execution>)
    requires |orders| <= 1
  {
    if orders == [] then (leg, None) else Execute(leg, orders[0])
  }

  ghost predicate OneMore(p0: map<Symbol, real>, e0: map<Symbol, real>, p: map<Symbol, real>, e: map<Symbol, real>,
                          more: seq<SimFill>, sig: Signal, marks: map<Symbol, real>, slippage: real) {
    && |more| <= 1
    && forall s ::
      var (leg, done) := After(LegIn(p0, e0, s), OrderFor(sig, marks, slippage, s));
      LegIn(p, e, s) == leg && TotalsOf(more, s) == Delta(done)
  }

  lemma StartFollowed(p: map<Symbol, real>, e: map<Symbol, real>, marks: map<Symbol, real>, slippage: real)
    ensures Followed(p, e, p, e, [], [], marks, slippage)
  {
  }

  lemma FollowedSnoc(p0: map<Symbol, real>, e0: map<Symbol, real>, p: map<Symbol, real>, e: map<Symbol, real>,
                     p2: map<Symbol, real>, e2: map<Symbol, real>, added: seq<SimFill>, more: seq<SimFill>,
                     signals: seq<Signal>, sig: Signal, marks: map<Symbol, real>, slippage: real)
    requires Followed(p0, e0, p, e, added, signals, marks, slippage)
    requires OneMore(p, e, p2, e2, more, sig, marks, slippage)
    ensures Followed(p0, e0, p2, e2, added + more, signals + [sig], marks, slippage)
  {
    hide Execute, RunAccount, RunLeg, LegIn, OrderFor, OrdersOf, TotalsOf, After;
    forall s
      ensures var a := RunLeg(LegIn(p0, e0, s), OrdersOf(signals + [sig], marks, slippage, s));
        LegIn(p2, e2, s) == a.leg && TotalsOf(added + more, s) == Totals(a.bought, a.paid, a.pnl)
    {
      OrdersSnoc(signals, sig, marks, slippage, s);
      RunSnoc(LegIn(p0, e0, s), OrdersOf(signals, marks, slippage, s), OrderFor(sig, marks, slippage, s));
      TotalsOfConcat(added, more, s);
    }
  }

  /** The order a signal becomes for `symbol`; none without a positive mark. */
  ghost function OrderFor(sig: Signal, marks: map<Symbol, real>, slippage: real, symbol: Symbol): (o: seq<Order>)
    ensures |o| <= 1
  {
    if sig.symbol == symbol && symbol in marks && marks[symbol] > 0.0
    then [Order(sig.side, Abs(sig.qty), SlippedPrice(marks[symbol], slippage, sig.side), sig.reduceOnly)] else []
  }

  ghost function OrdersOf(signals: seq<Signal>, marks: map<Symbol, real>, slippage: real, symbol: Symbol): seq<Order> {
    if signals == [] then []
    else
      var init, sig := signals[..|signals| - 1], signals[|signals| - 1];
      OrdersOf(init, marks, slippage, symbol) + OrderFor(sig, marks, slippage, symbol)
  }

  lemma OrdersSnoc(signals: seq<Signal>, sig: Signal, marks: map<Symbol, real>, slippage: real, symbol: Symbol)
    ensures OrdersOf(signals + [sig], marks, slippage, symbol)
         == OrdersOf(signals, marks, slippage, symbol) + OrderFor(sig, marks, slippage, symbol)
  {
    assert (signals + [sig])[..|signals|] == signals;
  }

  // --- Every sequence of orders on one symbol --------------------------------

  /** Running totals: the leg, sums over its fills, and what the dust cut threw
      away (quantity, and quantity times entry). */
  datatype Account = Account(leg: Leg, bought: real, paid: real, pnl: real, dustQty: real, dustCost: real)

  function OpenAccount(leg: Leg): Account { Account(leg, 0.0, 0.0, 0.0, 0.0, 0.0) }

  function Cost(leg: Leg): real {
    match leg.entry case Some(e) => e * leg.qty case None => 0.0
  }

  /** Quantity the dust cut removes in this step. */
  function Cut(leg: Leg, o: Order): real {
    if o.qty > 0.0 && Closes(leg, o) && Min(Abs(leg.qty), o.qty) > 0.0 && Abs(AfterClose(leg, o)) < DUST
    then AfterClose(leg, o) else 0.0
  }

  function Step(a: Account, o: Order): Account {
    var (leg, done) := Execute(a.leg, o);
    match done
    case None => a
    case Some(x) =>
      Account(leg, a.bought + Signed(x.side, x.qty), a.paid + Signed(x.side, Times(x.qty, x.price)), a.pnl + x.pnl,
              a.dustQty + Cut(a.leg, o), a.dustCost + EntryOr(a.leg, o.price) * Cut(a.leg, o))
  }

  function RunAccount(a: Account, orders: seq<Order>): Account {
    if orders == [] then a
    else Step(RunAccount(a, orders[..|orders| - 1]), orders[|orders| - 1])
  }

  function RunLeg(leg: Leg, orders: seq<Order>): Account { RunAccount(OpenAccount(leg), orders) }

  lemma StepTotals(a: Account, o: Order)
    ensures var (next, done) := Execute(a.leg, o);
      var b := Step(a, o);
      b.leg == next && Totals(b.bought, b.paid, b.pnl) == Plus(Totals(a.bought, a.paid, a.pnl), Delta(done))
  {
    hide ClosePnl, Averaged, AfterClose, Times, Cut, EntryOr;
  }

  lemma RunSnoc(leg: Leg, orders: seq<Order>, more: seq<Order>)
    requires |more| <= 1
    ensures var a, b := RunLeg(leg, orders), RunLeg(leg, orders + more);
      var (next, done) := After(a.leg, more);
      b.leg == next && Totals(b.bought, b.paid, b.pnl) == Plus(Totals(a.bought, a.paid, a.pnl), Delta(done))
  {
    hide Execute, Times, Step;
    if more == [] {
      assert orders + more == orders;
    } else {
      assert (orders + more)[..|orders|] == orders;
      assert RunLeg(leg, orders + more) == Step(RunLeg(leg, orders), more[0]);
      StepTotals(RunLeg(leg, orders), more[0]);
    }
  }

  predicate LegInv(leg: Leg) { leg.entry.None? <==> leg.qty == 0.0 }

  /** A reduce-only order on the same side as the position it meets. */
  predicate Misdirected(leg: Leg, o: Order) {
    o.reduceOnly && o.qty > 0.0 && ((leg.qty > 0.0 && o.side.Buy?) || (leg.qty < 0.0 && o.side.Sell?))
  }

  ghost predicate AllOppose(leg: Leg, orders: seq<Order>) {
    forall k :: 0 <= k < |orders| ==> !Misdirected(RunLeg(leg, orders[..k]).leg, orders[k])
  }

  /** Position = signed fills, and fill pnl = entry * position - money paid, both
      up to what the dust cut removed. */
  ghost predicate PositionIdentity(a: Account) { a.leg.qty + a.dustQty == a.bought }
  ghost predicate CostIdentity(a: Account) { a.pnl + a.paid == Cost(a.leg) + a.dustCost }

  lemma AddKeepsCost(q: real, e: real, o: Order)
    requires o.qty > 0.0 && (if o.side.Buy? then q > 0.0 else q < 0.0)
    ensures Averaged(Leg(q, Some(e)), o) * (q + Signed(o.side, o.qty)) == e * q + Signed(o.side, o.qty) * o.price
  {
    var total := Abs(q) + o.qty;
    var avg := Averaged(Leg(q, Some(e)), o);
    assert avg * total == Abs(q) * e + o.qty * o.price;
    if o.side.Sell? {
      assert q + Signed(o.side, o.qty) == -total;
      assert avg * (-total) == -(avg * total);
    }
  }

  lemma CloseKeepsCost(q: real, e: real, p: real, c: real)
    ensures (p - e) * c + (-c) * p == e * (q - c) - e * q
    ensures (e - p) * c + c * p == e * (q + c) - e * q
  {
  }

  /** A close moves the position towards zero and never across it. */
  lemma CloseNeverFlips(leg: Leg, o: Order)
    requires o.qty > 0.0 && Closes(leg, o)
    ensures var (next, _) := Execute(leg, o);
      (leg.qty >= 0.0 ==> 0.0 <= next.qty <= leg.qty) && (leg.qty <= 0.0 ==> leg.qty <= next.qty <= 0.0)
  {
  }

  lemma StepKeepsLegInv(leg: Leg, o: Order)
    requires LegInv(leg)
    ensures LegInv(Execute(leg, o).0)
  {
  }

  /** One step keeps the position identity exactly when it is not a reduce-only
      order on the position's own side. */
  lemma StepKeepsPositionIff(a: Account, o: Order)
    requires LegInv(a.leg) && PositionIdentity(a)
    ensures PositionIdentity(Step(a, o)) <==> !Misdirected(a.leg, o)
  {
    hide ClosePnl, Averaged;
  }

  lemma StepKeepsCost(a: Account, o: Order)
    requires LegInv(a.leg) && CostIdentity(a) && !Misdirected(a.leg, o)
    ensures CostIdentity(Step(a, o))
  {
    var q := a.leg.qty;
    if Execute(a.leg, o).1.Some? {
      if Closes(a.leg, o) {
        CloseStepCost(a, o);
      } else if q != 0.0 {
        AddKeepsCost(q, a.leg.entry.value, o);
      }
    }
  }

  lemma CloseStepCost(a: Account, o: Order)
    requires LegInv(a.leg) && CostIdentity(a) && !Misdirected(a.leg, o)
    requires o.qty > 0.0 && Closes(a.leg, o) && Min(Abs(a.leg.qty), o.qty) > 0.0
    ensures CostIdentity(Step(a, o))
  {
    var q, e, c := a.leg.qty, a.leg.entry.value, Min(Abs(a.leg.qty), o.qty);
    CloseKeepsCost(q, e, o.price, c);
    var left := AfterClose(a.leg, o);
    assert ClosePnl(a.leg, o) + Signed(o.side, c) * o.price == e * left - e * q;
    hide ClosePnl;
    assert Cost(a.leg) == e * q;
    assert Step(a, o).dustCost == a.dustCost + e * Cut(a.leg, o);
    assert Abs(left) >= DUST ==> e * Cut(a.leg, o) == 0.0;
  }

  lemma MisdirectedGap(q: real, e: real, p: real, c: real)
    ensures Gain(p, e, c) + Times(c, p) == Times(e, q - c) - Times(e, q) + 2.0 * Times(c, p)
    ensures Gain(e, p, c) - Times(c, p) == Times(e, q + c) - Times(e, q) - 2.0 * Times(c, p)
    ensures c > 0.0 ==> (Times(c, p) == 0.0 <==> p == 0.0)
  {
  }

  /** A misdirected fill breaks the cost identity by twice its notional. */
  lemma MisdirectedStepCost(a: Account, o: Order)
    requires LegInv(a.leg) && CostIdentity(a) && Misdirected(a.leg, o)
    ensures CostIdentity(Step(a, o)) <==> o.price == 0.0
  {
    var q, e, c := a.leg.qty, a.leg.entry.value, Min(Abs(a.leg.qty), o.qty);
    var left := AfterClose(a.leg, o);
    MisdirectedGap(q, e, o.price, c);
    assert Cost(a.leg) == Times(e, q);
    var next := Step(a, o);
    assert next.pnl == a.pnl + ClosePnl(a.leg, o);
    assert next.paid == a.paid + if o.side.Buy? then Times(c, o.price) else -Times(c, o.price);
    assert next.dustCost == a.dustCost + Times(e, Cut(a.leg, o));
    assert Cost(next.leg) == if Abs(left) < DUST then 0.0 else Times(e, left);
    assert Times(e, 0.0) == 0.0;
    hide Times, Gain, Step, Cost;
  }

  /** One step keeps the cost identity exactly when it is not a reduce-only order on
      the position's own side, or its price is zero. */
  lemma StepKeepsCostIff(a: Account, o: Order)
    requires LegInv(a.leg) && CostIdentity(a)
    ensures CostIdentity(Step(a, o)) <==> !Misdirected(a.leg, o) || o.price == 0.0
  {
    if Misdirected(a.leg, o) {
      MisdirectedStepCost(a, o);
    } else {
      StepKeepsCost(a, o);
    }
    hide Step, CostIdentity, Misdirected;
  }

  /** The average-cost identities over every sequence of orders whose reduce-only
      orders oppose the position they meet. */
  lemma {:induction false} AverageCostIdentity(leg: Leg, orders: seq<Order>)
    requires leg == FLAT && AllOppose(leg, orders)
    ensures var a := RunLeg(leg, orders);
      LegInv(a.leg) && PositionIdentity(a) && CostIdentity(a)
  {
    if orders != [] {
      var init, o := orders[..|orders| - 1], orders[|orders| - 1];
      assert forall k :: 0 <= k < |init| ==> init[..k] == orders[..k] && init[k] == orders[k];
      AverageCostIdentity(leg, init);
      var a := RunLeg(leg, init);
      assert !Misdirected(a.leg, o);
      StepKeepsLegInv(a.leg, o);
      StepKeepsPositionIff(a, o);
      StepKeepsCost(a, o);
      hide Step, LegInv, PositionIdentity, CostIdentity, Misdirected;
      assert RunLeg(leg, orders) == Step(a, o);
    }
  }

  /** The leg and totals after the first `k` orders from no position. */
  ghost function At(orders: seq<Order>, k: nat): Account
    requires k <= |orders|
  {
    RunLeg(FLAT, orders[..k])
  }

  lemma {:induction false} AtSteps(orders: seq<Order>, k: nat)
    requires k < |orders|
    ensures At(orders, k + 1) == Step(At(orders, k), orders[k]) && LegInv(At(orders, k).leg)
  {
    assert orders[..k + 1][..k] == orders[..k];
    if k > 0 {
      AtSteps(orders, k - 1);
      StepKeepsLegInv(At(orders, k - 1).leg, orders[k - 1]);
    }
    hide Execute, Cut, EntryOr;
  }

  /** The position identity holds all the way through a run exactly when every
      reduce-only order opposes the position it meets. */
  lemma PositionIdentityIff(orders: seq<Order>)
    ensures (forall k :: 0 <= k <= |orders| ==> PositionIdentity(At(orders, k))) <==> AllOppose(FLAT, orders)
  {
    hide Step;
    if AllOppose(FLAT, orders) {
      for n := 0 to |orders|
        invariant forall k :: 0 <= k <= n ==> PositionIdentity(At(orders, k))
      {
        AtSteps(orders, n);
        assert !Misdirected(RunLeg(FLAT, orders[..n]).leg, orders[n]);
        StepKeepsPositionIff(At(orders, n), orders[n]);
      }
    } else {
      var k :| 0 <= k < |orders| && Misdirected(RunLeg(FLAT, orders[..k]).leg, orders[k]);
      AtSteps(orders, k);
      if PositionIdentity(At(orders, k)) {
        StepKeepsPositionIff(At(orders, k), orders[k]);
      }
    }
  }

  ghost predicate AllOpposeOrFree(orders: seq<Order>) {
    forall k :: 0 <= k < |orders| ==> !Misdirected(At(orders, k).leg, orders[k]) || orders[k].price == 0.0
  }

  /** The cost identity holds all the way through a run exactly when every reduce-only
      order on its position's own side is free. */
  lemma CostIdentityIff(orders: seq<Order>)
    ensures (forall k :: 0 <= k <= |orders| ==> CostIdentity(At(orders, k))) <==> AllOpposeOrFree(orders)
  {
    hide Step, RunLeg, Misdirected;
    if AllOpposeOrFree(orders) {
      CostAtStart(orders);
      for n := 0 to |orders|
        invariant forall k :: 0 <= k <= n ==> CostIdentity(At(orders, k))
      {
        AtSteps(orders, n);
        StepKeepsCostIff(At(orders, n), orders[n]);
      }
    } else {
      var k :| 0 <= k < |orders| && Misdirected(At(orders, k).leg, orders[k]) && orders[k].price != 0.0;
      AtSteps(orders, k);
      if CostIdentity(At(orders, k)) {
        StepKeepsCostIff(At(orders, k), orders[k]);
      }
    }
  }

  lemma CostAtStart(orders: seq<Order>)
    ensures CostIdentity(At(orders, 0))
  {
  }

  function Opposite(side: Side): Side { if side.Buy? then Sell else Buy }

  /** Slippage always works against the order. */
  lemma SlippageIsAgainst(mark: real, slippage: real)
    ensures SlippedPrice(mark, slippage, Buy) == mark + Times(mark, slippage)
    ensures SlippedPrice(mark, slippage, Sell) == mark - Times(mark, slippage)
  {
  }

  lemma TwoOrders(x: Order, y: Order)
    ensures RunLeg(FLAT, [x, y]) == Step(Step(OpenAccount(FLAT), x), y)
  {
    var one, two := [x], [x, y];
    assert one[..|one| - 1] == [] && two[..|two| - 1] == one;
    hide Step;
    assert RunAccount(OpenAccount(FLAT), []) == OpenAccount(FLAT);
    assert RunAccount(OpenAccount(FLAT), one) == Step(OpenAccount(FLAT), x);
  }

  /** Opening and closing any position at one mark loses the slippage on it twice, and
      nothing else. */
  lemma RoundTripLoses(symbol: Symbol, side: Side, qty: real, mark: real, slippage: real, reduceOnly: bool)
    requires mark > 0.0 && qty != 0.0
    ensures var signals := [Signal(symbol, side, qty, false), Signal(symbol, Opposite(side), qty, reduceOnly)];
      var a := RunLeg(FLAT, OrdersOf(signals, map[symbol := mark], slippage, symbol));
      a.leg == FLAT && a.bought == 0.0 && a.pnl == -2.0 * Times(Abs(qty), Times(mark, slippage))
  {
    var q := Abs(qty);
    var open := Order(side, q, SlippedPrice(mark, slippage, side), false);
    var close := Order(Opposite(side), q, SlippedPrice(mark, slippage, Opposite(side)), reduceOnly);
    var signals := [Signal(symbol, side, qty, false), Signal(symbol, Opposite(side), qty, reduceOnly)];
    var marks := map[symbol := mark];
    OrdersSnoc([], signals[0], marks, slippage, symbol);
    OrdersSnoc([signals[0]], signals[1], marks, slippage, symbol);
    assert [] + [signals[0]] == [signals[0]] && [signals[0]] + [signals[1]] == signals;
    assert OrdersOf(signals, marks, slippage, symbol) == [open, close];
    SlippageIsAgainst(mark, slippage);
    TwoOrders(open, close);
    var one := Step(OpenAccount(FLAT), open);
    assert one.leg == Leg(Signed(side, q), Some(open.price)) && one.pnl == 0.0 && one.bought == Signed(side, q);
    var two := Step(one, close);
    assert two.leg == FLAT;
    var loss := Times(mark, slippage);
    assert Gain(mark - loss, mark + loss, q) == -2.0 * Times(q, loss);
  }

  /** The identities over a symbol's own fills, when every reduce-only order opposed the
      position it met. */
  ghost predicate Identities(leg: Leg, t: Totals, orders: seq<Order>) {
    AllOppose(FLAT, orders) ==>
      var a := RunLeg(FLAT, orders);
      leg.qty + a.dustQty == t.bought && t.pnl + t.paid == Cost(leg) + a.dustCost
  }

  lemma FromNothing(p0: map<Symbol, real>, e0: map<Symbol, real>, p: map<Symbol, real>, e: map<Symbol, real>,
                    added: seq<SimFill>, signals: seq<Signal>, marks: map<Symbol, real>, slippage: real)
    requires p0.Keys == e0.Keys == {} && Followed(p0, e0, p, e, added, signals, marks, slippage)
    ensures forall s :: Identities(LegIn(p, e, s), TotalsOf(added, s), OrdersOf(signals, marks, slippage, s))
  {
    forall s ensures Identities(LegIn(p, e, s), TotalsOf(added, s), OrdersOf(signals, marks, slippage, s)) {
      assert LegIn(p0, e0, s) == FLAT;
      hide RunLeg, TotalsOf, OrdersOf, LegIn, Identities;
      IdentitiesHold(LegIn(p, e, s), TotalsOf(added, s), OrdersOf(signals, marks, slippage, s));
    }
  }

  lemma IdentitiesHold(leg: Leg, t: Totals, orders: seq<Order>)
    requires var a := RunLeg(FLAT, orders); leg == a.leg && t == Totals(a.bought, a.paid, a.pnl)
    ensures Identities(leg, t, orders)
  {
    hide RunLeg, RunAccount, AllOppose, Cost;
    if AllOppose(FLAT, orders) {
      AverageCostIdentity(FLAT, orders);
    }
  }

  /** Each fill can lose less than 1e-12 of quantity to the dust cut, so the
      position equals the signed fills up to that. */
  lemma {:induction false} DustIsSmall(leg: Leg, orders: seq<Order>)
    ensures Abs(RunLeg(leg, orders).dustQty) <= DUST * |orders| as real
  {
    if orders != [] {
      var init, o := orders[..|orders| - 1], orders[|orders| - 1];
      DustIsSmall(leg, init);
      var a := RunLeg(leg, init);
      CutIsSmall(a, o);
      hide Step;
      assert RunLeg(leg, orders) == Step(a, o);
    }
  }

  lemma CutIsSmall(a: Account, o: Order)
    ensures Abs(Step(a, o).dustQty - a.dustQty) <= DUST
  {
  }

  /** The identity really fails for a misdirected reduce-only order: buying
      reduce-only on a long position books a buy fill while the position shrinks. */
  lemma ReduceOnlyBuyOnLong()
    ensures var long := Step(OpenAccount(FLAT), Order(Buy, 2.0, 10.0, false));
      var a := Step(long, Order(Buy, 1.0, 10.0, true));
      long.leg.qty == 2.0 && a.leg.qty == 1.0 && a.bought == 3.0
  {
    var open, close := Order(Buy, 2.0, 10.0, false), Order(Buy, 1.0, 10.0, true);
    StepTotals(OpenAccount(FLAT), open);
    StepTotals(Step(OpenAccount(FLAT), open), close);
    OpensLong();
    ShrinksLong();
    hide Step, Execute, Times;
  }

  lemma OpensLong()
    ensures Execute(FLAT, Order(Buy, 2.0, 10.0, false)).0 == Leg(2.0, Some(10.0))
    ensures Delta(Execute(FLAT, Order(Buy, 2.0, 10.0, false)).1).bought == 2.0
  {
    hide ClosePnl, Averaged, AfterClose, Times;
  }

  lemma ShrinksLong()
    ensures Execute(Leg(2.0, Some(10.0)), Order(Buy, 1.0, 10.0, true)).0.qty == 1.0
    ensures Delta(Execute(Leg(2.0, Some(10.0)), Order(Buy, 1.0, 10.0, true)).1).bought == 1.0
  {
    hide ClosePnl, Averaged, Times;
  }
}
