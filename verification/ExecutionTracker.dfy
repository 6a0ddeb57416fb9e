/** Per-parent execution quality: streaming averages over the fills of each open
    parent order, and the bounded ring of completed reports. */
module ExecutionTracker {
  import opened Arithmetic
  import opened Enums

  type ParentId = string

  datatype Fill = Fill(side: Side, qty: real, price: real, impactBps: real, fee: real)

  datatype Report = Report(
    parentId: ParentId, requested: real, arrival: real,
    filled: real, vwap: real, slippageBps: real, feeBps: real, feeAdjustedBps: real,
    impactBps: real, fillRatio: real, completed: bool)

  const COMPLETE_EPSILON := 0.000000001 // 1e-9

  function Submitted(id: ParentId, requested: real, arrival: real): Report {
    Report(id, requested, arrival, 0.0, 0.0, 0.0, 0.0, 0.0, 0.0, 0.0, false)
  }

  function Sign(side: Side): real { if side.Buy? then 1.0 else -1.0 }

  /** _slippage_bps: positive means the trader did worse than the arrival price. */
  function SlippageBps(side: Side, arrival: real, vwap: real): real {
    if arrival <= 0.0 || vwap <= 0.0 then 0.0
    else (vwap - arrival) / arrival * 10000.0 * Sign(side)
  }

  /** Streaming quantity-weighted mean; `otherwise` stands while nothing is filled. */
  function Blend(mean: real, weight: real, x: real, qty: real, otherwise: real): real {
    if weight + qty > 0.0 then (mean * weight + x * qty) / (weight + qty) else otherwise
  }

  function FeeBps(r: Report, vwap: real, f: Fill): real {
    var notional := if vwap > 0.0 then (r.filled + f.qty) * vwap else 0.0;
    if notional > 0.0 && f.fee > 0.0
    then Blend(r.feeBps, r.filled, f.fee / notional * 10000.0, f.qty, 0.0) else r.feeBps
  }

  function FillRatio(filled: real, requested: real): real {
    if requested > 0.0 then filled / requested else 0.0
  }

  /** The report after one more fill. */
  function Absorb(r: Report, f: Fill): Report {
    var filled := r.filled + f.qty;
    var vwap := Blend(r.vwap, r.filled, f.price, f.qty, r.vwap);
    var slippage, fee := SlippageBps(f.side, r.arrival, vwap), FeeBps(r, vwap, f);
    Report(r.parentId, r.requested, r.arrival, filled, vwap, slippage, fee, slippage + fee,
           Blend(r.impactBps, r.filled, f.impactBps, f.qty, 0.0),
           FillRatio(filled, r.requested), r.completed)
  }

  predicate Full(r: Report) { r.fillRatio >= 1.0 - COMPLETE_EPSILON }

  ghost function Replay(start: Report, fills: seq<Fill>): Report {
    if fills == [] then start else Absorb(Replay(start, fills[..|fills| - 1]), fills[|fills| - 1])
  }

  lemma ReplaySnoc(start: Report, fills: seq<Fill>, f: Fill)
    ensures Replay(start, fills + [f]) == Absorb(Replay(start, fills), f)
  {
    assert (fills + [f])[..|fills|] == fills;
  }

  // --- What the streaming figures mean ---------------------------------------

  ghost function Traded(fills: seq<Fill>): real {
    if fills == [] then 0.0 else Traded(fills[..|fills| - 1]) + fills[|fills| - 1].qty
  }

  ghost function Notional(fills: seq<Fill>): real {
    if fills == [] then 0.0
    else Notional(fills[..|fills| - 1]) + Times(fills[|fills| - 1].price, fills[|fills| - 1].qty)
  }

  ghost function ImpactWeight(fills: seq<Fill>): real {
    if fills == [] then 0.0
    else ImpactWeight(fills[..|fills| - 1]) + Times(fills[|fills| - 1].impactBps, fills[|fills| - 1].qty)
  }

  /** Sum of quantity times each fill's own slippage, on the given side. */
  ghost function SlippageWeight(fills: seq<Fill>, side: Side, arrival: real): real {
    if fills == [] then 0.0
    else
      var init, f := fills[..|fills| - 1], fills[|fills| - 1];
      SlippageWeight(init, side, arrival) + Times(SlippageBps(side, arrival, f.price), f.qty)
  }

  /** The filled quantity is positive after every fill. */
  ghost predicate Accumulates(fills: seq<Fill>) {
    fills != [] ==> Accumulates(fills[..|fills| - 1]) && Traded(fills) > 0.0
  }

  lemma BlendAdds(mean: real, weight: real, x: real, qty: real, otherwise: real)
    requires weight + qty > 0.0
    ensures Times(Blend(mean, weight, x, qty, otherwise), weight + qty) == Times(mean, weight) + Times(x, qty)
  {
  }

  /** vwap * filled is the money traded and impact * filled the weighted impact,
      whatever the sides and sizes, as long as the filled quantity stays positive. */
  lemma {:induction false} VwapIsMoneyOverQuantity(start: Report, fills: seq<Fill>)
    requires start == Submitted(start.parentId, start.requested, start.arrival) && Accumulates(fills)
    ensures var r := Replay(start, fills);
      && r.filled == Traded(fills)
      && Times(r.vwap, r.filled) == Notional(fills)
      && Times(r.impactBps, r.filled) == ImpactWeight(fills)
      && r.arrival == start.arrival && r.requested == start.requested && r.parentId == start.parentId
  {
    if fills != [] {
      var init, f := fills[..|fills| - 1], fills[|fills| - 1];
      VwapIsMoneyOverQuantity(start, init);
      var r := Replay(start, init);
      BlendAdds(r.vwap, r.filled, f.price, f.qty, r.vwap);
      BlendAdds(r.impactBps, r.filled, f.impactBps, f.qty, 0.0);
      hide Blend, Times, SlippageBps, FeeBps;
    }
  }

  /** Slippage is linear in the price. */
  lemma SlippageIsLinear(side: Side, arrival: real, price: real)
    requires arrival > 0.0 && price > 0.0
    ensures SlippageBps(side, arrival, price) == Times(price - arrival, 10000.0 * Sign(side) / arrival)
  {
  }

  lemma Regroup(p: real, a: real, k: real, q: real)
    ensures Times(Times(p - a, k), q) == Times(Times(p, q) - Times(a, q), k)
  {
  }

  lemma {:induction false} SlippageWeightClosed(fills: seq<Fill>, side: Side, arrival: real)
    requires arrival > 0.0 && forall f :: f in fills ==> f.price > 0.0
    ensures SlippageWeight(fills, side, arrival)
         == Times(Notional(fills) - Times(arrival, Traded(fills)), 10000.0 * Sign(side) / arrival)
  {
    var k := 10000.0 * Sign(side) / arrival;
    assert Times(0.0 - Times(arrival, 0.0), k) == 0.0;
    hide Times, SlippageBps, Sign;
    if fills != [] {
      var init, f := fills[..|fills| - 1], fills[|fills| - 1];
      SlippageWeightClosed(init, side, arrival);
      SlippageIsLinear(side, arrival, f.price);
      Regroup(f.price, arrival, k, f.qty);
      TimesAdds(k, Notional(init) - Times(arrival, Traded(init)), Times(f.price, f.qty) - Times(arrival, f.qty));
      TimesAdds(arrival, Traded(init), f.qty);
    }
  }

  lemma {:induction false} NotionalIsPositive(fills: seq<Fill>)
    requires forall f :: f in fills ==> f.price > 0.0 && f.qty > 0.0
    ensures Accumulates(fills)
    ensures fills != [] ==> Traded(fills) > 0.0 && Notional(fills) > 0.0
  {
    if fills != [] {
      NotionalIsPositive(fills[..|fills| - 1]);
    }
  }

  /** The slippage shown is that of the streaming vwap, on the side of the latest fill. */
  lemma LastSlippage(start: Report, fills: seq<Fill>)
    requires start == Submitted(start.parentId, start.requested, start.arrival)
    requires fills != [] && Accumulates(fills)
    ensures Replay(start, fills).slippageBps
         == SlippageBps(fills[|fills| - 1].side, start.arrival, Replay(start, fills).vwap)
  {
    VwapIsMoneyOverQuantity(start, fills[..|fills| - 1]);
    hide SlippageBps, Blend, Times;
  }

  /** The reported slippage is the quantity-weighted mean of the slippages of the
      single fills, taken on the side of the latest one. */
  lemma SlippageIsWeightedMean(start: Report, fills: seq<Fill>)
    requires start == Submitted(start.parentId, start.requested, start.arrival) && start.arrival > 0.0
    requires fills != [] && forall f :: f in fills ==> f.price > 0.0 && f.qty > 0.0
    ensures var r := Replay(start, fills);
      Times(r.slippageBps, r.filled) == SlippageWeight(fills, fills[|fills| - 1].side, start.arrival)
  {
    hide Times, SlippageBps, Replay, Sign, Notional, Traded, SlippageWeight, Accumulates;
    NotionalIsPositive(fills);
    VwapIsMoneyOverQuantity(start, fills);
    var r, side, a := Replay(start, fills), fills[|fills| - 1].side, start.arrival;
    LastSlippage(start, fills);
    TimesSign(r.vwap, r.filled);
    SlippageWeightClosed(fills, side, a);
    SlippageIsLinear(side, a, r.vwap);
    Regroup(r.vwap, a, 10000.0 * Sign(side) / a, r.filled);
  }

  /** Slippage in bps of the arrival price is what a buy paid above it, and what a sell
      got below it. */
  lemma SlippageIsCost(side: Side, arrival: real, vwap: real)
    ensures arrival > 0.0 && vwap > 0.0 ==>
      Times(SlippageBps(side, arrival, vwap), arrival)
      == 10000.0 * if side.Buy? then vwap - arrival else arrival - vwap
    ensures arrival <= 0.0 || vwap <= 0.0 ==> SlippageBps(side, arrival, vwap) == 0.0
  {
    if arrival > 0.0 && vwap > 0.0 {
      RatioTimes(vwap - arrival, arrival);
      var x := Ratio(vwap - arrival, arrival);
      assert SlippageBps(side, arrival, vwap) == if side.Buy? then 10000.0 * x else -10000.0 * x;
      TimesNegates(10000.0 * x, arrival);
      assert Times(10000.0 * x, arrival) == 10000.0 * Times(x, arrival);
    }
  }

  /** Reported slippage times quantity is the money lost against the arrival price: what
      the fills cost above it in a parent that buys, what they brought below it in one
      that sells. */
  lemma SlippageIsShortfall(start: Report, fills: seq<Fill>)
    requires start == Submitted(start.parentId, start.requested, start.arrival) && start.arrival > 0.0
    requires fills != [] && forall f :: f in fills ==> f.price > 0.0 && f.qty > 0.0
    ensures var r, atArrival := Replay(start, fills), Times(start.arrival, Traded(fills));
      Times(Times(r.slippageBps, start.arrival), r.filled)
      == 10000.0 * if fills[|fills| - 1].side.Buy? then Notional(fills) - atArrival else atArrival - Notional(fills)
  {
    NotionalIsPositive(fills);
    VwapIsMoneyOverQuantity(start, fills);
    LastSlippage(start, fills);
    var r, side, a := Replay(start, fills), fills[|fills| - 1].side, start.arrival;
    hide SlippageBps, Replay, Notional, Traded, Accumulates;
    TimesSign(r.vwap, r.filled);
    SlippageIsCost(side, a, r.vwap);
    TimesAdds(r.filled, r.vwap - a, a);
    assert Times(10000.0 * (r.vwap - a), r.filled) == 10000.0 * Times(r.vwap - a, r.filled);
    TimesNegates(r.vwap - a, r.filled);
    TimesNegates(10000.0 * (r.vwap - a), r.filled);
    hide Times;
    assert 10000.0 * (a - r.vwap) == -(10000.0 * (r.vwap - a));
  }

  /** A parent is complete once all but one part in 1e9 of it is filled; one that asked
      for nothing never is. */
  lemma FullIff(r: Report, f: Fill)
    ensures Full(Absorb(r, f)) <==> r.requested > 0.0 && r.filled + f.qty >= r.requested - 0.000000001 * r.requested
  {
    hide Blend, SlippageBps, FeeBps;
    var filled := r.filled + f.qty;
    if r.requested > 0.0 {
      RatioTimes(filled, r.requested);
      TimesOrder(1.0 - COMPLETE_EPSILON, Ratio(filled, r.requested), r.requested);
      assert Times(1.0 - COMPLETE_EPSILON, r.requested) == r.requested - 0.000000001 * r.requested;
    }
  }

  /** A fill's fee counts in basis points of all the money traded so far, weighted by its
      quantity; a fill without a fee leaves the figure as it is. */
  lemma FeeMeaning(r: Report, f: Fill) returns (bps: real)
    requires r.filled + f.qty > 0.0
    ensures var n := Absorb(r, f);
      && n.feeAdjustedBps == n.slippageBps + n.feeBps
      && (f.fee > 0.0 && n.vwap > 0.0 ==>
            && Times(bps, Times(n.filled, n.vwap)) == 10000.0 * f.fee
            && Times(n.feeBps, n.filled) == Times(r.feeBps, r.filled) + Times(bps, f.qty))
      && (f.fee <= 0.0 || n.vwap <= 0.0 ==> n.feeBps == r.feeBps)
  {
    bps := 0.0;
    var n := Absorb(r, f);
    hide SlippageBps, FillRatio;
    if f.fee > 0.0 && n.vwap > 0.0 {
      var notional := Times(n.filled, n.vwap);
      TimesSign(n.filled, n.vwap);
      bps := Ratio(f.fee, notional) * 10000.0;
      RatioTimes(f.fee, notional);
      assert Times(bps, notional) == 10000.0 * Times(Ratio(f.fee, notional), notional);
      BlendAdds(r.feeBps, r.filled, bps, f.qty, 0.0);
      assert n.feeBps == Blend(r.feeBps, r.filled, bps, f.qty, 0.0);
    }
  }

  // --- Working set and history -----------------------------------------------

  /** The slice `s[-n:]` keeps everything when n is zero. */
  function LastOf<T>(s: seq<T>, n: nat): seq<T> {
    if n == 0 || |s| <= n then s else s[|s| - n..]
  }

  /** The history after an append: truncated only when it is over the size. */
  function Truncated<T>(s: seq<T>, n: nat): (r: seq<T>)
    ensures r == LastOf(s, n)
  {
    if |s| > n then (if n == 0 then s else s[|s| - n..]) else s
  }

  lemma LastOfSnoc<T>(s: seq<T>, x: T, n: nat)
    ensures LastOf(LastOf(s, n) + [x], n) == LastOf(s + [x], n)
  {
  }

  function Blank(r: Report): Report { Submitted(r.parentId, r.requested, r.arrival) }

  ghost predicate Closed(done: seq<Report>, id: ParentId) { exists i :: 0 <= i < |done| && done[i].parentId == id }

  ghost predicate OpenFaithful(open: map<ParentId, Report>, fillsOf: map<ParentId, seq<Fill>>) {
    && open.Keys == fillsOf.Keys
    && forall id :: id in open ==> FaithfulTo(open[id], id, fillsOf[id])
  }

  ghost predicate FaithfulTo(r: Report, id: ParentId, fills: seq<Fill>) {
    r == Replay(Blank(r), fills) && r.parentId == id && !r.completed
  }

  lemma OpenAbsorbs(open: map<ParentId, Report>, fillsOf: map<ParentId, seq<Fill>>, id: ParentId, f: Fill)
    requires OpenFaithful(open, fillsOf) && id in open && !Absorb(open[id], f).completed
    ensures id in fillsOf
    ensures OpenFaithful(open[id := Absorb(open[id], f)], fillsOf[id := fillsOf[id] + [f]])
  {
    ReplaySnoc(Blank(open[id]), fillsOf[id], f);
    hide Replay, Blend, SlippageBps, FeeBps, FillRatio;
  }

  ghost predicate DoneFaithful(done: seq<Report>, fills: seq<seq<Fill>>) {
    && |done| == |fills|
    && forall i :: 0 <= i < |done| ==> CompletedAfter(done[i], fills[i])
  }

  ghost predicate CompletedAfter(r: Report, fills: seq<Fill>) {
    r == Replay(Blank(r), fills).(completed := true)
  }

  ghost predicate Single(done: seq<Report>, open: set<ParentId>) {
    && (forall i, j :: 0 <= i < j < |done| ==> done[i].parentId != done[j].parentId)
    && (forall i :: 0 <= i < |done| ==> done[i].parentId !in open)
  }

  lemma SingleComplete(done: seq<Report>, open: set<ParentId>, r: Report)
    requires Single(done, open) && r.parentId in open
    ensures Single(done + [r], open - {r.parentId})
  {
  }

  class Tracker {
    const historySize: nat
    var open: map<ParentId, Report>
    var history: seq<Report>
    ghost var fillsOf: map<ParentId, seq<Fill>>  // fills of each open report
    ghost var done: seq<Report>                  // every completion so far
    ghost var doneFills: seq<seq<Fill>>
    ghost var clearedAt: nat                     // completions before the last re-arm

    constructor (historySize: nat)
      ensures Valid() && OnceEach() && this.historySize == historySize
      ensures open == map[] && history == [] && done == []
    {
      this.historySize := historySize;
      open, history, fillsOf, done, doneFills, clearedAt := map[], [], map[], [], [], 0;
    }

    /** Every report is the replay of exactly the fills it received, and the
        history is the latest completions in order. */
    ghost predicate Valid()
      reads this
    {
      && OpenFaithful(open, fillsOf) && DoneFaithful(done, doneFills)
      && clearedAt <= |done| && history == LastOf(done[clearedAt..], historySize)
    }

    /** No parent completed twice, and none that completed is open. */
    ghost predicate OnceEach()
      reads this
    {
      Single(done, open.Keys)
    }

    /** on_parent_submit.  Identifiers stay single exactly when the new one has
        not completed before. */
    method OnParentSubmit(id: ParentId, requested: real, arrival: real)
      requires Valid()
      modifies this
      ensures Valid()
      ensures open == old(open)[id := Submitted(id, requested, arrival)] && fillsOf == old(fillsOf)[id := []]
      ensures clearedAt == old(clearedAt)
      ensures history == old(history) && done == old(done) && doneFills == old(doneFills)
      ensures old(OnceEach()) ==> (OnceEach() <==> !Closed(done, id))
    {
      open := open[id := Submitted(id, requested, arrival)];
      fillsOf := fillsOf[id := []];
      if i :| 0 <= i < |done| && done[i].parentId == id {
        assert done[i].parentId in open;
      }
    }

    /** The figures on_fill writes into a report. */
    static method Updated(report: Report, f: Fill) returns (updated: Report)
      ensures updated == Absorb(report, f)
    {
      hide Blend, SlippageBps, FeeBps, FillRatio;
      var prevFilled := report.filled;
      var newFilled := prevFilled + f.qty;
      updated := report;
      var vwap := Blend(report.vwap, prevFilled, f.price, f.qty, report.vwap);
      var fee := FeeBps(report, vwap, f);
      updated := updated.(vwap := vwap, filled := newFilled);
      updated := updated.(fillRatio := FillRatio(newFilled, report.requested));
      updated := updated.(impactBps := Blend(report.impactBps, prevFilled, f.impactBps, f.qty, 0.0));
      updated := updated.(slippageBps := SlippageBps(f.side, report.arrival, vwap), feeBps := fee);
      updated := updated.(feeAdjustedBps := updated.slippageBps + updated.feeBps);
    }

    /** on_fill */
    method OnFill(parentId: ParentId, f: Fill)
      requires Valid()
      modifies this
      ensures Valid()
      ensures old(OnceEach()) ==> OnceEach()
      ensures clearedAt == old(clearedAt)
      ensures parentId !in old(open) ==> open == old(open) && fillsOf == old(fillsOf) && done == old(done)
      ensures parentId in old(open) ==>
        var r := Absorb(old(open[parentId]), f);
        if Full(r) then open == old(open) - {parentId} && done == old(done) + [r.(completed := true)]
                        && doneFills == old(doneFills) + [old(fillsOf[parentId]) + [f]]
        else open == old(open)[parentId := r] && done == old(done)
             && fillsOf == old(fillsOf)[parentId := old(fillsOf[parentId]) + [f]]
      ensures parentId !in old(open) || !Full(Absorb(old(open[parentId]), f)) ==>
        history == old(history) && doneFills == old(doneFills)
    {
      if parentId !in open {
        return;
      }
      var report := open[parentId];
      assert !report.completed;
      hide Absorb, LastOf, Closed, OpenFaithful, DoneFaithful, Single;
      OpenAbsorbs(open, fillsOf, parentId, f);
      var updated := Updated(report, f);
      open := open[parentId := updated];
      fillsOf := fillsOf[parentId := fillsOf[parentId] + [f]];
      assert open.Keys == old(open.Keys);
      if updated.fillRatio >= 1.0 - COMPLETE_EPSILON {
        MarkComplete(parentId);
        assert open == old(open) - {parentId};
      }
    }

    /** close_parent: an open report completes as it stands. */
    method CloseParent(parentId: ParentId)
      requires Valid()
      modifies this
      ensures Valid()
      ensures old(OnceEach()) ==> OnceEach()
      ensures clearedAt == old(clearedAt)
      ensures parentId !in old(open) ==> open == old(open) && done == old(done) && history == old(history)
      ensures parentId in old(open) ==> open == old(open) - {parentId}
                                        && done == old(done) + [old(open[parentId]).(completed := true)]
    {
      if parentId in open {
        MarkComplete(parentId);
      }
    }

    /** _mark_complete */
    method MarkComplete(parentId: ParentId)
      requires Valid() && parentId in open
      modifies this
      ensures Valid()
      ensures old(OnceEach()) ==> OnceEach()
      ensures clearedAt == old(clearedAt)
      ensures open == old(open) - {parentId} && fillsOf == old(fillsOf) - {parentId}
      ensures done == old(done) + [old(open[parentId]).(completed := true)]
      ensures doneFills == old(doneFills) + [old(fillsOf[parentId])]
    {
      hide Replay, LastOf, Single;
      var report := open[parentId].(completed := true);
      assert CompletedAfter(report, fillsOf[parentId]);
      assert open.Keys - {parentId} == (open - {parentId}).Keys;
      if OnceEach() {
        SingleComplete(done, open.Keys, report);
      }
      hide CompletedAfter, FaithfulTo;
      LastOfSnoc(done[clearedAt..], report, historySize);
      assert (done + [report])[clearedAt..] == done[clearedAt..] + [report];
      done, doneFills := done + [report], doneFills + [fillsOf[parentId]];
      open, fillsOf := open - {parentId}, fillsOf - {parentId};
      history := history + [report];
      history := Truncated(history, historySize);
    }

    /** clear_completed_history_after_rearm */
    method ClearHistory()
      requires Valid()
      modifies this
      ensures Valid() && history == []
      ensures open == old(open) && fillsOf == old(fillsOf) && done == old(done) && doneFills == old(doneFills)
    {
      hide CompletedAfter, FaithfulTo;
      history := [];
      clearedAt := |done|;
      assert done[clearedAt..] == [];
    }

    /** report_for_parent finds the open report first and else the oldest kept
        completion; with every id used once it cannot be the wrong one. */
    method ReportForParent(parentId: ParentId) returns (found: bool, r: Report)
      requires Valid()
      ensures found <==> parentId in open || Closed(history, parentId)
      ensures found ==> r.parentId == parentId
      ensures found && OnceEach() ==> (r.completed <==> parentId !in open)
    {
      r := Submitted(parentId, 0.0, 0.0);
      if parentId in open {
        return true, open[parentId];
      }
      for i := 0 to |history|
        invariant forall j :: 0 <= j < i ==> history[j].parentId != parentId
      {
        if history[i].parentId == parentId {
          return true, history[i];
        }
      }
      found := false;
    }
  }
}
