/** Per-strategy PnL of archived runs: every fill's PnL is booked to strategies,
    netted parents are split by contribution weight, runs are merged. */
module PnlReport {
  import opened Arithmetic
  import opened Collections

  type Strategy = string
  type ParentId = string

  /** A fill record; absent JSON fields are None, "" or the empty map. */
  datatype Fill = Fill(
    parentId: ParentId, notes: string, strategyName: Strategy, action: string,
    pnl: Option<real>, realizedPnl: Option<real>, rp: Option<real>,
    contributions: map<Strategy, real>)

  datatype ParentMeta = ParentMeta(strategyName: Strategy, notes: string, contributions: map<Strategy, real>)

  type Meta = map<ParentId, ParentMeta>

  datatype Row = Row(closeFills: nat, openFills: nat, realized: real, attributed: real)

  type Rows = map<Strategy, Row>

  const NO_META := ParentMeta("", "", map[])
  const EMPTY_ROW := Row(0, 0, 0.0, 0.0)

  function InfoOf(meta: Meta, id: ParentId): ParentMeta { if id in meta then meta[id] else NO_META }

  function FillPnl(f: Fill): Option<real> {
    if f.pnl.Some? then f.pnl else if f.realizedPnl.Some? then f.realizedPnl else f.rp
  }

  function PnlOr0(f: Fill): real { match FillPnl(f) case Some(p) => p case None => 0.0 }

  predicate IsClose(f: Fill) { f.action == "close" || PnlOr0(f) != 0.0 }

  // --- Which strategy a fill belongs to ---------------------------------------

  function LowerChar(c: char): char {
    if 'A' <= c <= 'Z' then (c as int + 32) as char else c
  }

  predicate FlattenAt(s: string, i: nat)
    requires i + 7 <= |s|
  {
    forall k :: 0 <= k < 7 ==> LowerChar(s[i + k]) == "flatten"[k]
  }

  predicate MentionsFlatten(s: string) { exists i :: 0 <= i && i + 7 <= |s| && FlattenAt(s, i) }

  function FirstNonEmpty(a: string, b: string): string { if a != "" then a else b }

  function ResolveStrategy(parentId: ParentId, meta: Meta, notes: string, fillStrategy: Strategy): Strategy {
    if "Q-" <= parentId then "market_making_v2"
    else if "P-flat-" <= parentId then "__flatten__"
    else
      var info := InfoOf(meta, parentId);
      var name, text := FirstNonEmpty(fillStrategy, info.strategyName), FirstNonEmpty(notes, info.notes);
      if name != "" && name != "__netted__" then name
      else if "risk_" <= text || MentionsFlatten(text) then "risk_exit"
      else if name == "__netted__" then name
      else "unknown"
  }

  predicate IsName(s: Strategy) { s != "" && s != "__netted__" }

  /** Who gets a fill.  The prefix of the parent's id decides first: quotes are the market
      maker's, flattening parents have their own row.  Then the tag on the fill, then the
      parent's.  Without a name, notes that start with risk_ or mention flatten, in
      whatever case, make it a risk exit; what is left is netted or unknown. */
  lemma WhoGetsAFill(id: ParentId, meta: Meta, notes: string, tag: Strategy, tail: string, head: string)
    ensures ResolveStrategy("Q-" + tail, meta, notes, tag) == "market_making_v2"
    ensures ResolveStrategy("P-flat-" + tail, meta, notes, tag) == "__flatten__"
    ensures !("Q-" <= id) && !("P-flat-" <= id) ==>
      var info := InfoOf(meta, id);
      && (IsName(tag) ==> ResolveStrategy(id, meta, notes, tag) == tag)
      && (IsName(info.strategyName) ==> ResolveStrategy(id, meta, notes, "") == info.strategyName)
      && ResolveStrategy(id, meta, "risk_" + tail, "__netted__") == "risk_exit"
      && ResolveStrategy(id, meta, head + "Flatten" + tail, "__netted__") == "risk_exit"
      && ResolveStrategy(id, meta, head + "flatten" + tail, "__netted__") == "risk_exit"
      && (!IsName(info.strategyName) && "risk_" <= info.notes ==>
            ResolveStrategy(id, meta, "", "") == "risk_exit")
      && (notes != "" && !("risk_" <= notes) && !MentionsFlatten(notes) ==>
            && ResolveStrategy(id, meta, notes, "__netted__") == "__netted__"
            && (info.strategyName == "" ==> ResolveStrategy(id, meta, notes, "") == "unknown"))
  {
    assert ("Q-" + tail)[..2] == "Q-" && ("P-flat-" + tail)[..7] == "P-flat-" && ("risk_" + tail)[..5] == "risk_";
    assert ("P-flat-" + tail)[0] == 'P';
    Flattens(head, "Flatten", tail);
    Flattens(head, "flatten", tail);
  }

  lemma Flattens(head: string, word: string, tail: string)
    requires word == "Flatten" || word == "flatten"
    ensures MentionsFlatten(head + word + tail)
  {
    var text := head + word + tail;
    forall k | 0 <= k < 7 ensures LowerChar(text[|head| + k]) == "flatten"[k] {
      assert text[|head| + k] == word[k];
    }
    assert FlattenAt(text, |head|);
  }

  function StrategyOf(f: Fill, meta: Meta): Strategy {
    ResolveStrategy(f.parentId, meta, f.notes, f.strategyName)
  }

  // --- How one fill is split ---------------------------------------------------

  ghost function AbsTotal(contribs: map<Strategy, real>): real {
    MapSum(map k | k in contribs :: Abs(contribs[k]))
  }

  ghost function Weights(contribs: map<Strategy, real>): map<Strategy, real> {
    var total := AbsTotal(contribs);
    if total <= 0.0 then map[] else map k | k in contribs :: Ratio(Abs(contribs[k]), total)
  }

  function ContributionsOf(f: Fill, meta: Meta): map<Strategy, real> {
    if f.contributions != map[] then f.contributions else InfoOf(meta, f.parentId).contributions
  }

  /** A fill's own contributions count before those of its parent. */
  lemma WhoseContributions(f: Fill, meta: Meta)
    ensures f.contributions != map[] ==> ContributionsOf(f, meta) == f.contributions
    ensures f.contributions == map[] && f.parentId in meta ==>
              ContributionsOf(f, meta) == meta[f.parentId].contributions
    ensures f.contributions == map[] && f.parentId !in meta ==> ContributionsOf(f, meta) == map[]
  {
  }

  ghost predicate IsSplit(f: Fill, meta: Meta) {
    StrategyOf(f, meta) == "__netted__" && Weights(ContributionsOf(f, meta)) != map[]
  }

  /** The amounts a fill books, by strategy. */
  ghost function Shares(f: Fill, meta: Meta): map<Strategy, real> {
    if IsSplit(f, meta) && FillPnl(f).Some? then
      var w := Weights(ContributionsOf(f, meta));
      map k | k in w :: Times(PnlOr0(f), w[k])
    else map[StrategyOf(f, meta) := PnlOr0(f)]
  }

  predicate Unattributed(f: Fill, meta: Meta) { StrategyOf(f, meta) in {"unknown", "__netted__", ""} }

  // --- Booking -------------------------------------------------------------------

  function RowOf(rows: Rows, s: Strategy): Row { if s in rows then rows[s] else EMPTY_ROW }

  function Bump(row: Row, pnl: real, isClose: bool): Row {
    Row(row.closeFills + (if isClose then 1 else 0), row.openFills + (if isClose then 0 else 1),
        row.realized + pnl, row.attributed + pnl)
  }

  ghost function BookShares(rows: Rows, shares: map<Strategy, real>, isClose: bool): Rows {
    map k | k in rows.Keys + shares.Keys :: if k in shares then Bump(RowOf(rows, k), shares[k], isClose) else rows[k]
  }

  lemma NothingLeft(rows: Rows, shares: map<Strategy, real>, isClose: bool)
    ensures BookShares(rows, shares - shares.Keys, isClose) == rows
  {
  }

  lemma OneShareMore(rows: Rows, shares: map<Strategy, real>, left: set<Strategy>, k: Strategy, isClose: bool)
    requires k in left && left <= shares.Keys
    ensures var before := BookShares(rows, shares - left, isClose);
      BookShares(rows, shares - (left - {k}), isClose) == before[k := Bump(RowOf(before, k), shares[k], isClose)]
  {
    hide Bump;
  }

  /** The figures of a report. */
  datatype Figures = Figures(fillCount: nat, closePnl: real, unattributed: real, rows: Rows)

  const NO_FIGURES := Figures(0, 0.0, 0.0, map[])

  ghost function BookFill(g: Figures, f: Fill, meta: Meta): Figures {
    Figures(g.fillCount + 1,
            g.closePnl + (if IsClose(f) then PnlOr0(f) else 0.0),
            g.unattributed + (if Unattributed(f, meta) && !IsSplit(f, meta) then PnlOr0(f) else 0.0),
            if FillPnl(f).None? && !IsClose(f) then g.rows else BookShares(g.rows, Shares(f, meta), IsClose(f)))
  }

  ghost function BookAll(fills: seq<Fill>, meta: Meta): Figures {
    if fills == [] then NO_FIGURES else BookFill(BookAll(fills[..|fills| - 1], meta), fills[|fills| - 1], meta)
  }

  class RunReport {
    var fillCount: nat
    var closePnlSum: real
    var strategies: Rows
    var unattributed: real

    constructor ()
      ensures Sheet() == NO_FIGURES
    {
      fillCount, closePnlSum, strategies, unattributed := 0, 0.0, map[], 0.0;
    }

    function Sheet(): Figures
      reads this
    {
      Figures(fillCount, closePnlSum, unattributed, strategies)
    }

    /** _add_pnl */
    method AddPnl(strategy: Strategy, pnl: real, isClose: bool)
      modifies this`strategies
      ensures strategies == old(strategies)[strategy := Bump(RowOf(old(strategies), strategy), pnl, isClose)]
    {
      var row := RowOf(strategies, strategy);
      row := row.(attributed := row.attributed + pnl);
      row := row.(realized := row.realized + pnl);
      if isClose {
        row := row.(closeFills := row.closeFills + 1);
      } else {
        row := row.(openFills := row.openFills + 1);
      }
      strategies := strategies[strategy := row];
    }

    /** The loop over the weights of a netted fill. */
    method AddSplit(weights: map<Strategy, real>, pnl: real, isClose: bool)
      modifies this`strategies
      ensures strategies == BookShares(old(strategies), map k | k in weights :: Times(pnl, weights[k]), isClose)
    {
      hide Times, Bump, BookShares;
      var left := weights.Keys;
      ghost var shares := map k | k in weights :: Times(pnl, weights[k]);
      assert shares.Keys == weights.Keys;
      NothingLeft(strategies, shares, isClose);
      while left != {}
        invariant left <= weights.Keys
        invariant strategies == BookShares(old(strategies), shares - left, isClose)
      {
        ghost var w := AnyOf(left);
        var strat :| strat in left;
        AddPnl(strat, Times(pnl, weights[strat]), isClose);
        OneShareMore(old(strategies), shares, left, strat, isClose);
        left := left - {strat};
      }
      assert shares - {} == shares;
    }

    /** One iteration of the loop in analyze_run. */
    method AddFill(f: Fill, meta: Meta)
      modifies this
      ensures Sheet() == BookFill(old(Sheet()), f, meta)
    {
      ghost var given := Sheet();
      BookFillCases(given, f, meta);
      hide BookFill, StrategyOf, Weights, ContributionsOf, Times, BookShares, Bump, IsSplit, Unattributed;
      fillCount := fillCount + 1;
      var pnl := FillPnl(f);
      var isClose := f.action == "close" || (pnl.Some? && pnl.value != 0.0);
      var strategy := StrategyOf(f, meta);
      if pnl.None? {
        if isClose {
          var row := RowOf(strategies, strategy);
          strategies := strategies[strategy := row.(closeFills := row.closeFills + 1)];
          CountClose(row);
        }
        return;
      }
      if isClose {
        closePnlSum := closePnlSum + pnl.value;
      }
      var contribs := ContributionsOf(f, meta);
      if strategy == "__netted__" && contribs != map[] {
        var weights := ContributionWeights(contribs);
        if weights != map[] {
          AddSplit(weights, pnl.value, isClose);
          return;
        }
      }
      if strategy in {"unknown", "__netted__", ""} {
        unattributed := unattributed + pnl.value;
        AddPnl(if strategy == "" then "unknown" else strategy, pnl.value, isClose);
      } else {
        AddPnl(strategy, pnl.value, isClose);
      }
    }
  }

  /** The four ways a fill is booked, case by case. */
  lemma BookFillCases(g: Figures, f: Fill, meta: Meta)
    ensures var b := BookFill(g, f, meta);
      var s, p, c := StrategyOf(f, meta), PnlOr0(f), IsClose(f);
      var w := Weights(ContributionsOf(f, meta));
      var split := s == "__netted__" && ContributionsOf(f, meta) != map[] && w != map[];
      && s != ""
      && b.fillCount == g.fillCount + 1
      && b.closePnl == g.closePnl + (if c then p else 0.0)
      && (FillPnl(f).None? || split ==> b.unattributed == g.unattributed)
      && (FillPnl(f).None? && c ==> b.rows == g.rows[s := Bump(RowOf(g.rows, s), 0.0, true)])
      && (FillPnl(f).None? && !c ==> b.rows == g.rows)
      && (FillPnl(f).Some? && split ==> b.rows == BookShares(g.rows, map k | k in w :: Times(p, w[k]), c))
      && (FillPnl(f).Some? && !split ==> b.rows == g.rows[s := Bump(RowOf(g.rows, s), p, c)])
      && (FillPnl(f).Some? && !split && s !in {"unknown", "__netted__", ""} ==> b.unattributed == g.unattributed)
      && (FillPnl(f).Some? && !split && s in {"unknown", "__netted__", ""} ==> b.unattributed == g.unattributed + p)
  {
    BookSingle(g.rows, StrategyOf(f, meta), PnlOr0(f), IsClose(f));
    NoContributionsNoWeights();
    hide Weights, ContributionsOf, Times, BookShares, Bump, MentionsFlatten;
  }

  lemma BookSingle(rows: Rows, s: Strategy, pnl: real, isClose: bool)
    ensures BookShares(rows, map[s := pnl], isClose) == rows[s := Bump(RowOf(rows, s), pnl, isClose)]
  {
  }

  lemma CountClose(row: Row)
    ensures Bump(row, 0.0, true) == row.(closeFills := row.closeFills + 1)
  {
  }

  lemma NoContributionsNoWeights()
    ensures Weights(map[]) == map[]
  {
    var none: map<Strategy, real> := map[];
    assert (map k | k in none :: Abs(none[k])) == map[];
  }

  /** _contribution_weights */
  method ContributionWeights(contribs: map<Strategy, real>) returns (weights: map<Strategy, real>)
    ensures weights == Weights(contribs)
  {
    ghost var sizes := map k | k in contribs :: Abs(contribs[k]);
    var total, left := 0.0, contribs.Keys;
    assert sizes - left == map[];
    while left != {}
      invariant left <= contribs.Keys
      invariant total == MapSum(sizes - left)
    {
      ghost var w := AnyOf(left);
      var k :| k in left;
      MapSumUpdate(sizes - left, k, sizes[k]);
      assert sizes - (left - {k}) == (sizes - left)[k := sizes[k]];
      total := total + Abs(contribs[k]);
      left := left - {k};
    }
    assert sizes - left == sizes;
    if total <= 0.0 {
      return map[];
    }
    weights := map k | k in contribs :: Ratio(Abs(contribs[k]), total);
  }

  /** analyze_run on the fill records of a run; None without a fills file. */
  method AnalyzeRun(fills: Option<seq<Fill>>, meta: Meta) returns (report: RunReport?)
    ensures report == null <==> fills.None?
    ensures report != null ==> fresh(report) && report.Sheet() == BookAll(fills.value, meta)
  {
    if fills.None? {
      return null;
    }
    var r := new RunReport();
    for i := 0 to |fills.value|
      invariant fresh(r) && r.Sheet() == BookAll(fills.value[..i], meta)
    {
      r.AddFill(fills.value[i], meta);
      assert fills.value[..i + 1][..i] == fills.value[..i];
    }
    assert fills.value[..|fills.value|] == fills.value;
    report := r;
  }

  // --- Conservation ---------------------------------------------------------------

  ghost function Amounts(rows: Rows): map<Strategy, real> { map k | k in rows :: rows[k].attributed }

  /** PnL attributed over all strategies. */
  ghost function Attributed(rows: Rows): real { MapSum(Amounts(rows)) }

  ghost predicate RealizedAgrees(rows: Rows) { forall k :: k in rows ==> rows[k].realized == rows[k].attributed }

  lemma {:induction false} MapSumScale<K>(m: map<K, real>, c: real)
    ensures MapSum(map k | k in m :: Times(c, m[k])) == Times(c, MapSum(m))
    decreases |m|
  {
    var scaled := map k | k in m :: Times(c, m[k]);
    if m == map[] {
      assert scaled == map[];
    } else {
      var k := AnyOf(m.Keys);
      MapSumScale(m - {k}, c);
      MapSumRemove(m, k);
      MapSumRemove(scaled, k);
      hide Times;
      assert scaled - {k} == map j | j in m - {k} :: Times(c, (m - {k})[j]);
      TimesAdds(c, m[k], MapSum(m - {k}));
    }
  }

  /** The weights of a split add up to one. */
  lemma WeightsSumToOne(contribs: map<Strategy, real>)
    requires Weights(contribs) != map[]
    ensures MapSum(Weights(contribs)) == 1.0
  {
    var sizes, total := map k | k in contribs :: Abs(contribs[k]), AbsTotal(contribs);
    var scaled := map k | k in sizes :: Times(1.0 / total, sizes[k]);
    MapSumScale(sizes, 1.0 / total);
    forall k | k in contribs ensures Weights(contribs)[k] == scaled[k] {
      RatioScales(sizes[k], total);
    }
    assert Weights(contribs) == scaled;
    RatioScales(total, total);
  }

  lemma RatioScales(x: real, y: real)
    requires y != 0.0
    ensures Ratio(x, y) == Times(1.0 / y, x) && Ratio(y, y) == 1.0
  {
  }

  /** However a fill is split, its shares add up to its PnL. */
  lemma SharesSumToPnl(f: Fill, meta: Meta)
    ensures MapSum(Shares(f, meta)) == PnlOr0(f)
  {
    hide StrategyOf;
    if IsSplit(f, meta) && FillPnl(f).Some? {
      var w := Weights(ContributionsOf(f, meta));
      WeightsSumToOne(ContributionsOf(f, meta));
      MapSumScale(w, PnlOr0(f));
    } else {
      MapSumUpdate(map[], StrategyOf(f, meta), PnlOr0(f));
    }
  }

  /** A strategy's part of a netted fill is proportional to the size of its intent. */
  lemma SharesFollowIntents(f: Fill, meta: Meta, s: Strategy)
    requires IsSplit(f, meta) && FillPnl(f).Some? && s in ContributionsOf(f, meta)
    ensures Shares(f, meta)[s] * AbsTotal(ContributionsOf(f, meta)) == PnlOr0(f) * Abs(ContributionsOf(f, meta)[s])
  {
    hide StrategyOf, ContributionsOf, AbsTotal;
    var total, v := AbsTotal(ContributionsOf(f, meta)), Abs(ContributionsOf(f, meta)[s]);
    assert Ratio(v, total) * total == v;
  }

  lemma {:induction false} BookSharesAdds(rows: Rows, shares: map<Strategy, real>, isClose: bool)
    ensures Attributed(BookShares(rows, shares, isClose)) == Attributed(rows) + MapSum(shares)
    decreases |shares|
  {
    if shares == map[] {
      assert BookShares(rows, shares, isClose) == rows;
    } else {
      var k := AnyOf(shares.Keys);
      BookSharesAdds(rows, shares - {k}, isClose);
      MapSumRemove(shares, k);
      BookLast(rows, shares, isClose, k);
      hide Amounts, BookShares, RowOf, MapSum;
      MapSumUpdate(Amounts(BookShares(rows, shares - {k}, isClose)), k, RowOf(rows, k).attributed + shares[k]);
    }
  }

  lemma BookLast(rows: Rows, shares: map<Strategy, real>, isClose: bool, k: Strategy)
    requires k in shares
    ensures var before := Amounts(BookShares(rows, shares - {k}, isClose));
      && Amounts(BookShares(rows, shares, isClose)) == before[k := RowOf(rows, k).attributed + shares[k]]
      && (if k in before then before[k] else 0.0) == RowOf(rows, k).attributed
  {
  }

  ghost function PnlSum(fills: seq<Fill>): real {
    if fills == [] then 0.0 else PnlSum(fills[..|fills| - 1]) + PnlOr0(fills[|fills| - 1])
  }

  /** Over any fills and metadata: what is attributed to all strategies is the
      close PnL sum and the sum of all PnL that is present. */
  lemma {:induction false} RunConserves(fills: seq<Fill>, meta: Meta)
    ensures var g := BookAll(fills, meta);
      Attributed(g.rows) == g.closePnl == PnlSum(fills) && RealizedAgrees(g.rows) && g.fillCount == |fills|
  {
    if fills == [] {
      assert Amounts(map[]) == map[];
    } else {
      var init, f := fills[..|fills| - 1], fills[|fills| - 1];
      RunConserves(init, meta);
      SharesSumToPnl(f, meta);
      hide StrategyOf, Shares, IsSplit, Attributed;
      BookSharesAdds(BookAll(init, meta).rows, Shares(f, meta), IsClose(f));
    }
  }

  ghost function ShareOf(f: Fill, meta: Meta, s: Strategy): real {
    if s in Shares(f, meta) then Shares(f, meta)[s] else 0.0
  }

  ghost function SharesOf(fills: seq<Fill>, meta: Meta, s: Strategy): real {
    if fills == [] then 0.0 else SharesOf(fills[..|fills| - 1], meta, s) + ShareOf(fills[|fills| - 1], meta, s)
  }

  /** Each strategy ends with exactly the sum of its shares. */
  lemma {:induction false} StrategyGetsItsShares(fills: seq<Fill>, meta: Meta, s: Strategy)
    ensures RowOf(BookAll(fills, meta).rows, s).attributed == SharesOf(fills, meta, s)
  {
    if fills != [] {
      var f := fills[|fills| - 1];
      StrategyGetsItsShares(fills[..|fills| - 1], meta, s);
      if FillPnl(f).None? {
        assert ShareOf(f, meta, s) == 0.0;
      }
      hide Shares, StrategyOf, IsSplit;
    }
  }

  // --- Merging runs -----------------------------------------------------------------

  function AddRows(a: Row, b: Row): Row {
    Row(a.closeFills + b.closeFills, a.openFills + b.openFills, a.realized + b.realized, a.attributed + b.attributed)
  }

  ghost function MergedRows(agg: Rows, src: Rows): Rows {
    map k | k in agg.Keys + src.Keys :: if k in src then AddRows(RowOf(agg, k), src[k]) else agg[k]
  }

  lemma {:induction false} MergeAdds(agg: Rows, src: Rows)
    ensures Attributed(MergedRows(agg, src)) == Attributed(agg) + Attributed(src)
    decreases |src|
  {
    if src == map[] {
      assert MergedRows(agg, src) == agg && Amounts(src) == map[];
    } else {
      var k := AnyOf(src.Keys);
      MergeAdds(agg, src - {k});
      MapSumRemove(Amounts(src), k);
      AmountsRemove(src, k);
      MergeLast(agg, src, k);
      assert k in Amounts(src) && Amounts(src)[k] == src[k].attributed;
      hide MergedRows, RowOf, Amounts, MapSum;
      MapSumUpdate(Amounts(MergedRows(agg, src - {k})), k, RowOf(agg, k).attributed + src[k].attributed);
    }
  }

  lemma AmountsRemove(rows: Rows, k: Strategy)
    ensures Amounts(rows) - {k} == Amounts(rows - {k})
  {
  }

  lemma MergeLast(agg: Rows, src: Rows, k: Strategy)
    requires k in src
    ensures var before := Amounts(MergedRows(agg, src - {k}));
      && Amounts(MergedRows(agg, src)) == before[k := RowOf(agg, k).attributed + src[k].attributed]
      && (if k in before then before[k] else 0.0) == RowOf(agg, k).attributed
  {
  }

  /** A run folder: whether it is a directory, its fills file and its metadata. */
  datatype RunDir = RunDir(isDir: bool, fills: Option<seq<Fill>>, meta: Meta)

  predicate Scanned(d: RunDir) { d.isDir && d.fills.Some? }

  ghost function MergeFigures(g: Figures, r: Figures): Figures {
    Figures(g.fillCount + r.fillCount, g.closePnl + r.closePnl, g.unattributed + r.unattributed,
            MergedRows(g.rows, r.rows))
  }

  ghost function MergeRuns(dirs: seq<RunDir>): Figures {
    if dirs == [] then NO_FIGURES
    else
      var g, d := MergeRuns(dirs[..|dirs| - 1]), dirs[|dirs| - 1];
      if Scanned(d) then MergeFigures(g, BookAll(d.fills.value, d.meta)) else g
  }

  ghost function PnlOfRuns(dirs: seq<RunDir>): real {
    if dirs == [] then 0.0
    else
      var d := dirs[|dirs| - 1];
      PnlOfRuns(dirs[..|dirs| - 1]) + (if Scanned(d) then PnlSum(d.fills.value) else 0.0)
  }

  /** Merging any runs keeps the equality. */
  lemma {:induction false} MergingConserves(dirs: seq<RunDir>)
    ensures var g := MergeRuns(dirs);
      Attributed(g.rows) == g.closePnl == PnlOfRuns(dirs) && RealizedAgrees(g.rows)
  {
    if dirs == [] {
      assert Amounts(map[]) == map[];
    } else {
      var init, d := dirs[..|dirs| - 1], dirs[|dirs| - 1];
      MergingConserves(init);
      if Scanned(d) {
        RunConserves(d.fills.value, d.meta);
        MergeAdds(MergeRuns(init).rows, BookAll(d.fills.value, d.meta).rows);
        hide BookAll, Attributed;
      }
    }
  }

  class AggregateReport {
    var runsTotal: nat
    var runsWithFills: nat
    var fillCount: nat
    var closePnlSum: real
    var strategies: Rows
    var unattributed: real

    constructor ()
      ensures Sheet() == NO_FIGURES && runsTotal == 0 && runsWithFills == 0
    {
      runsTotal, runsWithFills, fillCount := 0, 0, 0;
      closePnlSum, strategies, unattributed := 0.0, map[], 0.0;
    }

    function Sheet(): Figures
      reads this
    {
      Figures(fillCount, closePnlSum, unattributed, strategies)
    }

    /** _merge_rows */
    method MergeRows(src: Rows)
      modifies this`strategies
      ensures strategies == MergedRows(old(strategies), src)
    {
      var left := src.Keys;
      while left != {}
        invariant left <= src.Keys
        invariant strategies == MergedRows(old(strategies), src - left)
      {
        ghost var w := AnyOf(left);
        var name :| name in left;
        strategies := strategies[name := AddRows(RowOf(strategies, name), src[name])];
        left := left - {name};
      }
      assert src - {} == src;
    }
  }

  /** analyze_all over the run folders in their order. */
  method AnalyzeAll(dirs: seq<RunDir>) returns (agg: AggregateReport)
    ensures fresh(agg) && agg.Sheet() == MergeRuns(dirs)
    ensures agg.runsTotal == Folders(dirs) && agg.runsWithFills == FoldersWithFills(dirs)
  {
    assert dirs[..0] == [];
    NoRuns();
    hide BookAll, MergedRows, MergeRuns, Folders, FoldersWithFills;
    agg := new AggregateReport();
    for i := 0 to |dirs|
      invariant fresh(agg) && agg.Sheet() == MergeRuns(dirs[..i])
      invariant agg.runsTotal == Folders(dirs[..i]) && agg.runsWithFills == FoldersWithFills(dirs[..i])
    {
      var dir := dirs[i];
      RunsSnoc(dirs, i);
      if !dir.isDir {
        continue;
      }
      agg.runsTotal := agg.runsTotal + 1;
      var report := AnalyzeRun(dir.fills, dir.meta);
      if report == null {
        continue;
      }
      agg.runsWithFills := agg.runsWithFills + 1;
      agg.fillCount := agg.fillCount + report.fillCount;
      agg.closePnlSum := agg.closePnlSum + report.closePnlSum;
      agg.unattributed := agg.unattributed + report.unattributed;
      agg.MergeRows(report.strategies);
    }
    assert dirs[..|dirs|] == dirs;
  }

  lemma NoRuns()
    ensures MergeRuns([]) == NO_FIGURES && Folders([]) == 0 && FoldersWithFills([]) == 0
  {
  }

  lemma RunsSnoc(dirs: seq<RunDir>, i: nat)
    requires i < |dirs|
    ensures var d := dirs[i];
      && MergeRuns(dirs[..i + 1])
         == (if Scanned(d) then MergeFigures(MergeRuns(dirs[..i]), BookAll(d.fills.value, d.meta))
             else MergeRuns(dirs[..i]))
      && Folders(dirs[..i + 1]) == Folders(dirs[..i]) + (if d.isDir then 1 else 0)
      && FoldersWithFills(dirs[..i + 1]) == FoldersWithFills(dirs[..i]) + (if Scanned(d) then 1 else 0)
  {
    assert dirs[..i + 1][..i] == dirs[..i];
    hide BookAll, MergeFigures;
  }

  ghost function Folders(dirs: seq<RunDir>): nat {
    if dirs == [] then 0 else Folders(dirs[..|dirs| - 1]) + (if dirs[|dirs| - 1].isDir then 1 else 0)
  }

  ghost function FoldersWithFills(dirs: seq<RunDir>): nat {
    if dirs == [] then 0 else FoldersWithFills(dirs[..|dirs| - 1]) + (if Scanned(dirs[|dirs| - 1]) then 1 else 0)
  }
}
