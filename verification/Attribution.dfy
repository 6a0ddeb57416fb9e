/** Attribution of venue fills of one netted parent order to the strategies that
    asked for it: cumulative fill fraction, per-strategy ledger deltas, and the
    moment the bookkeeping is dropped. */
module Attribution {
  import opened Arithmetic
  import opened Collections
  import opened Enums

  type ParentId = string
  type Strategy = string
  type Symbol = string

  datatype Parent = Parent(id: ParentId, symbol: Symbol, qty: real, strategyName: Strategy)
  datatype Fill = Fill(parentId: ParentId, symbol: Symbol, side: Side, qty: real)

  type Intents = map<Strategy, map<Symbol, real>>
  type Ledger = map<(Strategy, Symbol), real>
  type Parents = map<ParentId, Parent>

  const DUST := 0.000000000001        // 1e-12
  const COMPLETE_SLACK := 0.000000001 // 1e-9

  function MinOne(x: real): real { if x <= 1.0 then x else 1.0 }

  function Position(ledger: Ledger, key: (Strategy, Symbol)): real {
    if key in ledger then ledger[key] else 0.0
  }

  /** StrategyPositionLedger: deltas add. */
  function AddDelta(ledger: Ledger, key: (Strategy, Symbol), delta: real): Ledger {
    ledger[key := Position(ledger, key) + delta]
  }

  // --- The fraction of the parent that has been credited --------------------

  datatype Progress = Progress(filled: real, applied: real)

  const UNFILLED := Progress(0.0, 0.0)

  function Fraction(filled: real, parentQty: real): real {
    if parentQty > 0.0 then MinOne(filled / parentQty) else 1.0
  }

  function Advance(p: Progress, qty: real, parentQty: real): Progress {
    var filled := p.filled + qty;
    Progress(filled, Fraction(filled, parentQty))
  }

  predicate Complete(p: Progress, parentQty: real) {
    parentQty > 0.0 && p.filled / parentQty >= 1.0 - COMPLETE_SLACK
  }

  /** Quantity the parent is measured against: its own when it is known and
      positive, the fill's otherwise. */
  function BaseQty(parent: Option<Parent>, fill: Fill): real {
    if parent.Some? && parent.value.qty > 0.0 then parent.value.qty else fill.qty
  }

  /** Part of an intended delta. */
  function Share(intended: real, fraction: real): real { Times(intended, fraction) }

  /** The delta a strategy gets, or nothing for dust and other symbols. */
  function Intended(intents: Intents, strategy: Strategy, symbol: Symbol): real {
    if strategy in intents && symbol in intents[strategy] && Abs(intents[strategy][symbol]) >= DUST
    then intents[strategy][symbol] else 0.0
  }

  /** Every ledger position after one attributed fill. */
  ghost predicate CreditedBy(before: Ledger, after: Ledger, intents: Intents, symbol: Symbol, delta: real) {
    forall key :: Position(after, key)
      == Position(before, key) + (if key.1 == symbol then Share(Intended(intents, key.0, symbol), delta) else 0.0)
  }

  /** What the attribution loop has credited to `key` when `remaining`
      strategies are still to come. */
  ghost function Done(intents: Intents, symbol: Symbol, remaining: set<Strategy>, delta: real,
                      key: (Strategy, Symbol)): real {
    if key.1 == symbol && key.0 !in remaining then Share(Intended(intents, key.0, symbol), delta) else 0.0
  }

  lemma NothingForDust(delta: real)
    ensures Share(0.0, delta) == 0.0
  {
  }

  class Engine {
    const multiStrategy: bool
    const activeStrategy: Strategy
    const strategies: set<Strategy>
    var attribution: map<ParentId, Intents>
    var filledQty: map<ParentId, real>
    var appliedFraction: map<ParentId, real>
    var ledger: Ledger

    ghost function ProgressOf(id: ParentId): Progress
      reads this
    {
      ProgressIn(filledQty, appliedFraction, id)
    }

    constructor (multiStrategy: bool, activeStrategy: Strategy, strategies: set<Strategy>)
      ensures attribution == map[] && filledQty == map[] && appliedFraction == map[] && ledger == map[]
      ensures this.multiStrategy == multiStrategy && this.activeStrategy == activeStrategy
      ensures this.strategies == strategies
    {
      this.multiStrategy := multiStrategy;
      this.activeStrategy := activeStrategy;
      this.strategies := strategies;
      attribution, filledQty, appliedFraction, ledger := map[], map[], map[], map[];
    }

    /** _record_strategy_ledger_fill */
    method RecordFill(fill: Fill, parent: Option<Parent>)
      modifies this
      ensures attribution == old(attribution)
      ensures var attributed := multiStrategy && fill.parentId != "" && fill.parentId in attribution
                                && attribution[fill.parentId] != map[];
        if attributed then
          && ProgressOf(fill.parentId) == Advance(old(ProgressOf(fill.parentId)), fill.qty, BaseQty(parent, fill))
          && (forall id :: id != fill.parentId ==> ProgressOf(id) == old(ProgressOf(id)))
          && CreditedBy(old(ledger), ledger, attribution[fill.parentId], fill.symbol,
                        ProgressOf(fill.parentId).applied - old(ProgressOf(fill.parentId)).applied)
        else
          && filledQty == old(filledQty) && appliedFraction == old(appliedFraction)
          && var name := if !multiStrategy then activeStrategy
                         else if parent.Some? then parent.value.strategyName else "";
             var signed := if fill.side.Buy? then fill.qty else -fill.qty;
             ledger == if name in strategies && (multiStrategy ==> name != "")
                       then AddDelta(old(ledger), (name, fill.symbol), signed) else old(ledger)
    {
      var signed := if fill.side.Buy? then fill.qty else -fill.qty;
      if multiStrategy && fill.parentId != "" && fill.parentId in attribution
         && attribution[fill.parentId] != map[] {
        ApplyAttributedDelta(fill, attribution[fill.parentId], parent);
        return;
      }
      var name := if parent.Some? then parent.value.strategyName else "";
      if multiStrategy && name != "" && name in strategies {
        ledger := AddDelta(ledger, (name, fill.symbol), signed);
        return;
      }
      if !multiStrategy && activeStrategy in strategies {
        ledger := AddDelta(ledger, (activeStrategy, fill.symbol), signed);
      }
    }

    /** _apply_attributed_ledger_delta */
    method ApplyAttributedDelta(fill: Fill, intents: Intents, parent: Option<Parent>)
      modifies this`filledQty, this`appliedFraction, this`ledger
      ensures ProgressOf(fill.parentId) == Advance(old(ProgressOf(fill.parentId)), fill.qty, BaseQty(parent, fill))
      ensures forall id :: id != fill.parentId ==> ProgressOf(id) == old(ProgressOf(id))
      ensures CreditedBy(old(ledger), ledger, intents, fill.symbol,
                         ProgressOf(fill.parentId).applied - old(ProgressOf(fill.parentId)).applied)
    {
      var id := fill.parentId;
      var parentQty := BaseQty(parent, fill);
      var cumulative := (if id in filledQty then filledQty[id] else 0.0) + fill.qty;
      filledQty := filledQty[id := cumulative];
      var fillFraction := if parentQty > 0.0 then MinOne(cumulative / parentQty) else 1.0;
      var prev := if id in appliedFraction then appliedFraction[id] else 0.0;
      var deltaFraction := fillFraction - prev;
      appliedFraction := appliedFraction[id := fillFraction];
      CreditStrategies(intents, fill.symbol, deltaFraction);
    }

    /** The loop over the parent's strategies. */
    method CreditStrategies(intents: Intents, symbol: Symbol, delta: real)
      modifies this`ledger
      ensures CreditedBy(old(ledger), ledger, intents, symbol, delta)
    {
      NothingForDust(delta);
      hide Share;
      var remaining := intents.Keys;
      while remaining != {}
        invariant remaining <= intents.Keys
        invariant forall key ::
          Position(ledger, key) == Position(old(ledger), key) + Done(intents, symbol, remaining, delta, key)
        decreases |remaining|
      {
        ghost var some, before := AnyOf(remaining), ledger;
        var strategy :| strategy in remaining;
        remaining := remaining - {strategy};
        var deltas := intents[strategy];
        var intended := if symbol in deltas then deltas[symbol] else 0.0;
        if Abs(intended) >= DUST {
          ledger := AddDelta(ledger, (strategy, symbol), Share(intended, delta));
        }
        assert forall key :: key != (strategy, symbol) ==> Position(ledger, key) == Position(before, key);
      }
    }

    /** _finalize_attributed_parent_if_complete */
    method FinalizeIfComplete(fill: Fill, parent: Option<Parent>)
      modifies this`attribution, this`filledQty, this`appliedFraction
      ensures var id := fill.parentId;
        var filled := if id in old(filledQty) then old(filledQty)[id] else 0.0;
        var dropped := id != "" && id in old(attribution)
                       && Complete(Progress(filled, 0.0), BaseQty(parent, fill));
        && attribution == (if dropped then old(attribution) - {id} else old(attribution))
        && filledQty == (if dropped then old(filledQty) - {id} else old(filledQty))
        && appliedFraction == (if dropped then old(appliedFraction) - {id} else old(appliedFraction))
    {
      var id := fill.parentId;
      if id == "" || id !in attribution {
        return;
      }
      var parentQty := BaseQty(parent, fill);
      var cumulative := if id in filledQty then filledQty[id] else 0.0;
      if parentQty <= 0.0 {
        return;
      }
      if cumulative / parentQty >= 1.0 - COMPLETE_SLACK {
        attribution := attribution - {id};
        filledQty := filledQty - {id};
        appliedFraction := appliedFraction - {id};
      }
    }

    /** What happens to the ledger on each fill: it is recorded, then its parent is
        finalized if complete. */
    method OnFill(f: Fill, parents: Parents, ghost s: Start, ghost fills: seq<Fill>)
      requires multiStrategy && s.attribution.Keys <= s.progress.Keys * parents.Keys
      requires Consistent(s.attribution, parents, fills + [f])
      requires Tracks(s, parents, fills, attribution, filledQty, appliedFraction)
      requires Booked(s, parents, strategies, fills, ledger)
      modifies this
      ensures Tracks(s, parents, fills + [f], attribution, filledQty, appliedFraction)
      ensures Booked(s, parents, strategies, fills + [f], ledger)
    {
      hide Booked, Advance, Share, Intended, Complete, At, CreditedBy, DirectMove, Tracks;
      assert (fills + [f])[|fills|] == f;
      ghost var a, q, g, l := attribution, filledQty, appliedFraction, ledger;
      NettedNow(s, parents, fills, f, a, q, g);
      AtSnoc(s, parents, fills, f);
      var parent := Lookup(parents, f.parentId);
      RecordFill(f, parent);
      DirectIs(parent, f, strategies, l);
      BookedStep(s, parents, strategies, fills, f, l, ledger);
      CompleteByFilled(ProgressOf(f.parentId), BaseQty(parent, f));
      ghost var q1, g1 := filledQty, appliedFraction;
      forall k | k != f.parentId ensures ProgressIn(q1, g1, k) == ProgressIn(q, g, k) {
        assert ProgressOf(k) == old(ProgressOf(k));
      }
      FinalizeIfComplete(f, parent);
      TracksStep(s, parents, fills, f, a, q, g, q1, g1, attribution, filledQty, appliedFraction);
    }

    /** Any sequence of fills, of several parents interleaved, each recorded and its
        parent finalized when complete. */
    method OnFills(fills: seq<Fill>, parents: Parents)
      requires multiStrategy && Consistent(attribution, parents, fills)
      requires forall id :: id in attribution ==> !Complete(ProgressOf(id), parents[id].qty)
      modifies this
      ensures var s := Start(old(attribution), map id | id in old(attribution) :: old(ProgressOf(id)), old(ledger));
        && Tracks(s, parents, fills, attribution, filledQty, appliedFraction)
        && Booked(s, parents, strategies, fills, ledger)
    {
      hide Booked, Complete;
      ghost var s := Start(attribution, map id | id in attribution :: ProgressOf(id), ledger);
      NothingBooked(s, parents, strategies);
      assert fills[..0] == [];
      for i := 0 to |fills|
        invariant Tracks(s, parents, fills[..i], attribution, filledQty, appliedFraction)
        invariant Booked(s, parents, strategies, fills[..i], ledger)
      {
        assert fills[..i + 1] == fills[..i] + [fills[i]];
        OnFill(fills[i], parents, s, fills[..i]);
      }
      assert fills[..|fills|] == fills;
    }
  }

  // --- Every sequence of fills, of any parents --------------------------------

  function Lookup(parents: Parents, id: ParentId): Option<Parent> {
    if id in parents then Some(parents[id]) else None
  }

  /** Every netted parent is known, has a size and at least one intent, and is filled in
      its own symbol. */
  ghost predicate Consistent(attribution: map<ParentId, Intents>, parents: Parents, fills: seq<Fill>) {
    && (forall id :: id in attribution ==>
          id != "" && attribution[id] != map[] && id in parents && parents[id].qty > 0.0)
    && (forall k :: 0 <= k < |fills| && fills[k].parentId in attribution ==>
          fills[k].symbol == parents[fills[k].parentId].symbol)
  }

  /** The progress of one parent over interleaved fills: its own ones count until it is
      complete. */
  ghost function Follow(p: Progress, fills: seq<Fill>, id: ParentId, parentQty: real): Progress {
    if fills == [] then p
    else
      var before, f := Follow(p, fills[..|fills| - 1], id, parentQty), fills[|fills| - 1];
      if f.parentId == id && !Complete(before, parentQty) then Advance(before, f.qty, parentQty) else before
  }

  /** The sizes of those of its fills that count. */
  ghost function Counted(p: Progress, fills: seq<Fill>, id: ParentId, parentQty: real): seq<real> {
    if fills == [] then []
    else
      var init, f := fills[..|fills| - 1], fills[|fills| - 1];
      Counted(p, init, id, parentQty)
      + if f.parentId == id && !Complete(Follow(p, init, id, parentQty), parentQty) then [f.qty] else []
  }

  /** Interleaving with other parents' fills makes no difference to a parent. */
  lemma {:induction false} FollowIsOwnRun(p: Progress, fills: seq<Fill>, id: ParentId, parentQty: real)
    ensures Follow(p, fills, id, parentQty) == RunFills(p, Counted(p, fills, id, parentQty), parentQty)
  {
    if fills != [] {
      var init, f := fills[..|fills| - 1], fills[|fills| - 1];
      FollowIsOwnRun(p, init, id, parentQty);
      hide Advance, Complete;
      var counted := Counted(p, init, id, parentQty);
      assert (counted + [f.qty])[..|counted|] == counted && counted + [] == counted;
    }
  }

  /** What an engine starts a run of fills from. */
  datatype Start = Start(attribution: map<ParentId, Intents>, progress: map<ParentId, Progress>, ledger: Ledger)

  ghost function At(s: Start, parents: Parents, fills: seq<Fill>, id: ParentId): Progress
    requires id in s.progress && id in parents
  {
    Follow(s.progress[id], fills, id, parents[id].qty)
  }

  /** The parent of the next fill is still netted. */
  ghost predicate Netted(s: Start, parents: Parents, fills: seq<Fill>, id: ParentId)
    requires s.attribution.Keys <= s.progress.Keys * parents.Keys
  {
    id in s.attribution && !Complete(At(s, parents, fills, id), parents[id].qty)
  }

  /** What each netted parent of its symbol has credited to a position. */
  ghost function Contributions(s: Start, parents: Parents, fills: seq<Fill>, key: (Strategy, Symbol))
    : map<ParentId, real>
    requires s.attribution.Keys <= s.progress.Keys * parents.Keys
  {
    map id | id in s.attribution && parents[id].symbol == key.1 ::
      Share(Intended(s.attribution[id], key.0, key.1), At(s, parents, fills, id).applied - s.progress[id].applied)
  }

  function SignedQty(f: Fill): real { if f.side.Buy? then f.qty else -f.qty }

  /** A fill outside netting goes to its parent's strategy. */
  function DirectMove(parent: Option<Parent>, f: Fill, strategies: set<Strategy>, key: (Strategy, Symbol)): real {
    if parent.Some? && parent.value.strategyName == key.0 != "" && key.0 in strategies && f.symbol == key.1
    then SignedQty(f) else 0.0
  }

  ghost function Direct(s: Start, parents: Parents, strategies: set<Strategy>, fills: seq<Fill>,
                        key: (Strategy, Symbol)): real
    requires s.attribution.Keys <= s.progress.Keys * parents.Keys
  {
    if fills == [] then 0.0
    else
      var init, f := fills[..|fills| - 1], fills[|fills| - 1];
      Direct(s, parents, strategies, init, key)
      + if Netted(s, parents, init, f.parentId) then 0.0
        else DirectMove(Lookup(parents, f.parentId), f, strategies, key)
  }

  /** The whole ledger after a run of fills: every position has moved by the intents of
      each netted parent times the fraction it advanced, and by the fills outside
      netting. */
  ghost predicate Booked(s: Start, parents: Parents, strategies: set<Strategy>, fills: seq<Fill>, ledger: Ledger)
    requires s.attribution.Keys <= s.progress.Keys * parents.Keys
  {
    forall key ::
      Position(ledger, key) == Position(s.ledger, key) + MapSum(Contributions(s, parents, fills, key))
                               + Direct(s, parents, strategies, fills, key)
  }

  ghost predicate Tracks(s: Start, parents: Parents, fills: seq<Fill>, attribution: map<ParentId, Intents>,
                         filledQty: map<ParentId, real>, appliedFraction: map<ParentId, real>)
    requires s.attribution.Keys <= s.progress.Keys * parents.Keys
  {
    forall id :: TracksOne(s, parents, fills, attribution, filledQty, appliedFraction, id)
  }

  /** A parent is in the books exactly while it is netted, with its own progress. */
  ghost predicate TracksOne(s: Start, parents: Parents, fills: seq<Fill>, attribution: map<ParentId, Intents>,
                            filledQty: map<ParentId, real>, appliedFraction: map<ParentId, real>, id: ParentId)
    requires s.attribution.Keys <= s.progress.Keys * parents.Keys
  {
    && (id in attribution <==> Netted(s, parents, fills, id))
    && (id in attribution ==>
          attribution[id] == s.attribution[id]
          && ProgressIn(filledQty, appliedFraction, id) == At(s, parents, fills, id))
  }

  function ProgressIn(filledQty: map<ParentId, real>, appliedFraction: map<ParentId, real>, id: ParentId): Progress {
    Progress(if id in filledQty then filledQty[id] else 0.0, if id in appliedFraction then appliedFraction[id] else 0.0)
  }

  lemma FollowSnoc(p: Progress, fills: seq<Fill>, f: Fill, id: ParentId, parentQty: real)
    ensures var before := Follow(p, fills, id, parentQty);
      Follow(p, fills + [f], id, parentQty)
      == if f.parentId == id && !Complete(before, parentQty) then Advance(before, f.qty, parentQty) else before
  {
    assert (fills + [f])[..|fills|] == fills;
    hide Advance, Complete;
  }

  lemma AtSnoc(s: Start, parents: Parents, fills: seq<Fill>, f: Fill)
    requires s.attribution.Keys <= s.progress.Keys * parents.Keys
    ensures forall k :: k in s.attribution ==>
      At(s, parents, fills + [f], k) == if k == f.parentId && Netted(s, parents, fills, k)
        then Advance(At(s, parents, fills, k), f.qty, parents[k].qty) else At(s, parents, fills, k)
  {
    forall k | k in s.attribution
      ensures At(s, parents, fills + [f], k) == if k == f.parentId && Netted(s, parents, fills, k)
        then Advance(At(s, parents, fills, k), f.qty, parents[k].qty) else At(s, parents, fills, k)
    {
      FollowSnoc(s.progress[k], fills, f, k, parents[k].qty);
    }
  }

  lemma CompleteByFilled(p: Progress, parentQty: real)
    ensures Complete(p, parentQty) == Complete(Progress(p.filled, 0.0), parentQty)
  {
  }

  /** What tracking says of the parent of the next fill. */
  lemma NettedNow(s: Start, parents: Parents, fills: seq<Fill>, f: Fill, a: map<ParentId, Intents>,
                  q: map<ParentId, real>, g: map<ParentId, real>)
    requires s.attribution.Keys <= s.progress.Keys * parents.Keys
    requires Tracks(s, parents, fills, a, q, g) && Consistent(s.attribution, parents, fills + [f])
    ensures var id := f.parentId;
      && (id in a <==> Netted(s, parents, fills, id))
      && (id in a ==>
            && id != "" && a[id] == s.attribution[id] != map[] && f.symbol == parents[id].symbol
            && ProgressIn(q, g, id) == At(s, parents, fills, id) && BaseQty(Lookup(parents, id), f) == parents[id].qty)
  {
    assert (fills + [f])[|fills|] == f;
    assert TracksOne(s, parents, fills, a, q, g, f.parentId);
    hide At, Complete;
  }

  /** Recording and finalizing one fill keeps track of every parent: `q1` and `g1` are
      the progress maps in between. */
  lemma TracksStep(s: Start, parents: Parents, fills: seq<Fill>, f: Fill,
                   a: map<ParentId, Intents>, q: map<ParentId, real>, g: map<ParentId, real>,
                   q1: map<ParentId, real>, g1: map<ParentId, real>,
                   a2: map<ParentId, Intents>, q2: map<ParentId, real>, g2: map<ParentId, real>)
    requires s.attribution.Keys <= s.progress.Keys * parents.Keys && Tracks(s, parents, fills, a, q, g)
    requires forall k :: k != f.parentId ==> ProgressIn(q1, g1, k) == ProgressIn(q, g, k)
    requires f.parentId in a ==>
      f.parentId in parents
      && ProgressIn(q1, g1, f.parentId) == Advance(ProgressIn(q, g, f.parentId), f.qty, parents[f.parentId].qty)
    requires var id := f.parentId;
      var dropped := id in a && Complete(ProgressIn(q1, g1, id), parents[id].qty);
      && a2 == (if dropped then a - {id} else a) && q2 == (if dropped then q1 - {id} else q1)
      && g2 == (if dropped then g1 - {id} else g1)
    ensures Tracks(s, parents, fills + [f], a2, q2, g2)
  {
    forall k ensures TracksOne(s, parents, fills + [f], a2, q2, g2, k) {
      assert TracksOne(s, parents, fills, a, q, g, k);
      assert k != f.parentId ==> ProgressIn(q1, g1, k) == ProgressIn(q, g, k);
      hide Tracks, TracksOne, Complete, Advance, ProgressIn, Netted, At;
      TracksOneStep(s, parents, fills, f, a, q, g, q1, g1, a2, q2, g2, k);
    }
  }

  lemma TracksOneStep(s: Start, parents: Parents, fills: seq<Fill>, f: Fill,
                      a: map<ParentId, Intents>, q: map<ParentId, real>, g: map<ParentId, real>,
                      q1: map<ParentId, real>, g1: map<ParentId, real>,
                      a2: map<ParentId, Intents>, q2: map<ParentId, real>, g2: map<ParentId, real>, k: ParentId)
    requires s.attribution.Keys <= s.progress.Keys * parents.Keys && TracksOne(s, parents, fills, a, q, g, k)
    requires k != f.parentId ==> ProgressIn(q1, g1, k) == ProgressIn(q, g, k)
    requires k == f.parentId && k in a ==>
      k in parents && ProgressIn(q1, g1, k) == Advance(ProgressIn(q, g, k), f.qty, parents[k].qty)
    requires k == f.parentId ==>
      var dropped := k in a && Complete(ProgressIn(q1, g1, k), parents[k].qty);
      && a2 == (if dropped then a - {k} else a) && q2 == (if dropped then q1 - {k} else q1)
      && g2 == (if dropped then g1 - {k} else g1)
    requires k != f.parentId ==>
      (k in a2 <==> k in a) && (k in a ==> a2[k] == a[k]) && ProgressIn(q2, g2, k) == ProgressIn(q1, g1, k)
    ensures TracksOne(s, parents, fills + [f], a2, q2, g2, k)
  {
    AtSnoc(s, parents, fills, f);
    hide At, Complete, Advance;
  }

  lemma DirectSnoc(s: Start, parents: Parents, strategies: set<Strategy>, fills: seq<Fill>, f: Fill,
                   key: (Strategy, Symbol))
    requires s.attribution.Keys <= s.progress.Keys * parents.Keys
    ensures Direct(s, parents, strategies, fills + [f], key) == Direct(s, parents, strategies, fills, key)
      + if Netted(s, parents, fills, f.parentId) then 0.0
        else DirectMove(Lookup(parents, f.parentId), f, strategies, key)
  {
    assert (fills + [f])[..|fills|] == fills;
    hide Netted, DirectMove;
  }

  /** A fill of a netted parent moves only its own contribution, and others' fills
      move none. */
  lemma ContributionsSnoc(s: Start, parents: Parents, fills: seq<Fill>, f: Fill, key: (Strategy, Symbol))
    requires s.attribution.Keys <= s.progress.Keys * parents.Keys
    ensures var netted := Netted(s, parents, fills, f.parentId);
      MapSum(Contributions(s, parents, fills + [f], key)) == MapSum(Contributions(s, parents, fills, key))
      + if netted && parents[f.parentId].symbol == key.1
        then Share(Intended(s.attribution[f.parentId], key.0, key.1),
                   At(s, parents, fills + [f], f.parentId).applied - At(s, parents, fills, f.parentId).applied)
        else 0.0
  {
    hide MapSum, Share, Intended, Advance, Complete, Follow;
    var id := f.parentId;
    var before, after := Contributions(s, parents, fills, key), Contributions(s, parents, fills + [f], key);
    forall k | k in s.attribution
      ensures k != id || !Netted(s, parents, fills, id) ==> At(s, parents, fills + [f], k) == At(s, parents, fills, k)
    {
      FollowSnoc(s.progress[k], fills, f, k, parents[k].qty);
    }
    if Netted(s, parents, fills, id) && parents[id].symbol == key.1 {
      assert after == before[id := after[id]];
      MapSumUpdate(before, id, after[id]);
      ShareSplit(Intended(s.attribution[id], key.0, key.1), s.progress[id].applied,
                 At(s, parents, fills, id).applied, At(s, parents, fills + [f], id).applied);
    } else {
      assert after == before;
    }
  }

  /** One fill, recorded and perhaps finalized, keeps the books. */
  lemma BookedStep(s: Start, parents: Parents, strategies: set<Strategy>, fills: seq<Fill>, f: Fill,
                   before: Ledger, after: Ledger)
    requires s.attribution.Keys <= s.progress.Keys * parents.Keys
    requires Booked(s, parents, strategies, fills, before)
    requires if Netted(s, parents, fills, f.parentId)
      then f.symbol == parents[f.parentId].symbol
        && CreditedBy(before, after, s.attribution[f.parentId], f.symbol,
                      At(s, parents, fills + [f], f.parentId).applied - At(s, parents, fills, f.parentId).applied)
      else forall key ::
        Position(after, key) == Position(before, key) + DirectMove(Lookup(parents, f.parentId), f, strategies, key)
    ensures Booked(s, parents, strategies, fills + [f], after)
  {
    hide MapSum, Contributions, Direct, Share, Intended, At, Netted, Position, DirectMove;
    forall key ensures Position(after, key) == Position(s.ledger, key)
        + MapSum(Contributions(s, parents, fills + [f], key)) + Direct(s, parents, strategies, fills + [f], key)
    {
      ContributionsSnoc(s, parents, fills, f, key);
      DirectSnoc(s, parents, strategies, fills, f, key);
    }
  }

  /** The ledger after a fill outside netting. */
  function Directly(parent: Option<Parent>, f: Fill, strategies: set<Strategy>, ledger: Ledger): Ledger {
    var name := if parent.Some? then parent.value.strategyName else "";
    if name in strategies && name != "" then AddDelta(ledger, (name, f.symbol), SignedQty(f)) else ledger
  }

  lemma DirectIs(parent: Option<Parent>, f: Fill, strategies: set<Strategy>, ledger: Ledger)
    ensures forall key ::
      Position(Directly(parent, f, strategies, ledger), key)
      == Position(ledger, key) + DirectMove(parent, f, strategies, key)
  {
  }

  lemma NothingBooked(s: Start, parents: Parents, strategies: set<Strategy>)
    requires s.attribution.Keys <= s.progress.Keys * parents.Keys
    ensures Booked(s, parents, strategies, [], s.ledger)
  {
    forall key ensures MapSum(Contributions(s, parents, [], key)) == 0.0 {
      forall id | id in s.attribution
        ensures Share(Intended(s.attribution[id], key.0, key.1),
                      At(s, parents, [], id).applied - s.progress[id].applied) == 0.0
      {
        ShareSplit(Intended(s.attribution[id], key.0, key.1), s.progress[id].applied, 0.0, 0.0);
      }
      AllZero(Contributions(s, parents, [], key));
    }
    hide MapSum, Contributions, Position;
  }

  lemma {:induction false} AllZero(m: map<ParentId, real>)
    requires forall k :: k in m ==> m[k] == 0.0
    ensures MapSum(m) == 0.0
    decreases |m|
  {
    if m != map[] {
      var k := AnyOf(m.Keys);
      AllZero(m - {k});
    }
  }

  // --- Every sequence of fills of one parent --------------------------------

  function RunFills(p: Progress, fills: seq<real>, parentQty: real): Progress {
    if fills == [] then p
    else Advance(RunFills(p, fills[..|fills| - 1], parentQty), fills[|fills| - 1], parentQty)
  }

  /** The ledger deltas one strategy receives, in order. */
  ghost function Deltas(p: Progress, fills: seq<real>, parentQty: real, intended: real): seq<real> {
    if fills == [] then []
    else
      var init := fills[..|fills| - 1];
      Deltas(p, init, parentQty, intended)
      + [Share(intended, RunFills(p, fills, parentQty).applied - RunFills(p, init, parentQty).applied)]
  }

  lemma ShareSplit(x: real, a: real, b: real, c: real)
    ensures Share(x, b - a) + Share(x, c - b) == Share(x, c - a)
    ensures Share(x, a - a) == 0.0
  {
    TimesAdds(x, b - a, c - b);
    TimesNegates(x, 0.0);
    hide Times;
    assert (b - a) + (c - b) == c - a;
  }

  lemma {:induction false} DeltasTelescope(p: Progress, fills: seq<real>, parentQty: real, intended: real)
    ensures Sum(Deltas(p, fills, parentQty, intended))
         == Share(intended, RunFills(p, fills, parentQty).applied - p.applied)
    ensures RunFills(p, fills, parentQty).filled == p.filled + Sum(fills)
  {
    hide Fraction, Share;
    if fills == [] {
      ShareSplit(intended, p.applied, p.applied, p.applied);
    } else {
      var init := fills[..|fills| - 1];
      DeltasTelescope(p, init, parentQty, intended);
      var a, b, c := p.applied, RunFills(p, init, parentQty).applied, RunFills(p, fills, parentQty).applied;
      SumSnoc(Deltas(p, init, parentQty, intended), Share(intended, c - b));
      ShareSplit(intended, a, b, c);
    }
  }

  /** In a run of interleaved fills, what a fresh parent contributes to a position is the
      sum of the deltas of its own counted fills. */
  lemma ContributionIsDeltas(s: Start, parents: Parents, fills: seq<Fill>, id: ParentId, key: (Strategy, Symbol))
    requires s.attribution.Keys <= s.progress.Keys * parents.Keys
    requires id in s.attribution && parents[id].symbol == key.1 && s.progress[id] == UNFILLED
    ensures Contributions(s, parents, fills, key)[id]
         == Sum(Deltas(UNFILLED, Counted(UNFILLED, fills, id, parents[id].qty), parents[id].qty,
                       Intended(s.attribution[id], key.0, key.1)))
  {
    FollowIsOwnRun(UNFILLED, fills, id, parents[id].qty);
    DeltasTelescope(UNFILLED, Counted(UNFILLED, fills, id, parents[id].qty), parents[id].qty,
                    Intended(s.attribution[id], key.0, key.1));
    hide Sum, Deltas, Share, Intended, Counted, Follow, RunFills;
  }

  lemma FractionBounds(filled: real, parentQty: real)
    requires parentQty > 0.0
    ensures filled == 0.0 <==> Fraction(filled, parentQty) == 0.0
    ensures filled >= 0.0 ==> 0.0 <= Fraction(filled, parentQty) <= 1.0
    ensures filled <= parentQty ==> Share(parentQty, Fraction(filled, parentQty)) == filled
    ensures filled > parentQty ==> Fraction(filled, parentQty) == 1.0
  {
    var q := Ratio(filled, parentQty);
    RatioTimes(filled, parentQty);
    TimesOrder(1.0, q, parentQty);
    TimesSign(q, parentQty);
    TimesNegates(parentQty, 1.0);
    hide Times;
  }

  /** Over any sequence of fills, the deltas a strategy receives add up to its
      intended delta times min(1, filled / parent quantity). */
  lemma AttributionTelescopes(fills: seq<real>, parentQty: real, intended: real)
    requires parentQty > 0.0
    ensures Sum(Deltas(UNFILLED, fills, parentQty, intended)) == Share(intended, Fraction(Sum(fills), parentQty))
  {
    DeltasTelescope(UNFILLED, fills, parentQty, intended);
    FractionBounds(0.0, parentQty);
    hide Share;
    if fills != [] {
      hide Fraction;
      var f := Fraction(Sum(fills), parentQty);
      assert f - 0.0 == f;
    }
  }

  /** When the fills add up to something non-negative a strategy never receives
      more than it intended, nor anything of the opposite sign, even when the
      parent overfills. */
  lemma NeverBeyondIntent(fills: seq<real>, parentQty: real, intended: real)
    requires parentQty > 0.0 && Sum(fills) >= 0.0
    ensures var got := Sum(Deltas(UNFILLED, fills, parentQty, intended));
      (intended >= 0.0 ==> 0.0 <= got <= intended) && (intended <= 0.0 ==> intended <= got <= 0.0)
  {
    AttributionTelescopes(fills, parentQty, intended);
    FractionBounds(Sum(fills), parentQty);
    Shrinks(intended, Fraction(Sum(fills), parentQty));
  }

  lemma Shrinks(x: real, f: real)
    requires 0.0 <= f <= 1.0
    ensures x >= 0.0 ==> 0.0 <= Share(x, f) <= x
    ensures x <= 0.0 ==> x <= Share(x, f) <= 0.0
  {
    TimesWithin(x, f, 1.0);
    TimesNegates(x, 1.0);
    hide Times;
  }

  /** When the bookkeeping is dropped, each strategy has received its intended
      delta to within one part in 1e9. */
  lemma NearlyAllWhenDropped(fills: seq<real>, parentQty: real, intended: real)
    requires parentQty > 0.0 && Complete(RunFills(UNFILLED, fills, parentQty), parentQty)
    ensures Abs(intended - Sum(Deltas(UNFILLED, fills, parentQty, intended)))
         <= Abs(Share(intended, COMPLETE_SLACK))
  {
    AttributionTelescopes(fills, parentQty, intended);
    DeltasTelescope(UNFILLED, fills, parentQty, intended);
    Remainder(intended, Fraction(Sum(fills), parentQty));
  }

  lemma Remainder(x: real, f: real)
    requires 1.0 - COMPLETE_SLACK <= f <= 1.0
    ensures Abs(x - Share(x, f)) <= Abs(Share(x, COMPLETE_SLACK))
  {
    var e := 1.0 - f;
    TimesAdds(x, f, e);
    TimesNegates(x, 1.0);
    hide Times;
    assert f + e == 1.0;
    TimesWithin(x, e, COMPLETE_SLACK);
  }

  // --- All strategies together ------------------------------------------------

  /** What the fills credit to each strategy on one symbol; dust intents get
      nothing. */
  ghost function CreditedAll(intents: map<Strategy, real>, fills: seq<real>, parentQty: real): map<Strategy, real> {
    map s | s in intents ::
      if Abs(intents[s]) >= DUST then Sum(Deltas(UNFILLED, fills, parentQty, intents[s])) else 0.0
  }

  ghost function WithoutDust(intents: map<Strategy, real>): map<Strategy, real> {
    map s | s in intents :: if Abs(intents[s]) >= DUST then intents[s] else 0.0
  }

  lemma {:induction false} SharesAddUp(m: map<Strategy, real>, f: real, shares: map<Strategy, real>)
    requires shares.Keys == m.Keys && forall s :: s in m ==> shares[s] == Share(m[s], f)
    ensures MapSum(shares) == Share(MapSum(m), f)
    decreases |m|
  {
    if m == map[] {
      assert shares == map[];
    } else {
      hide Share;
      var k := AnyOf(m.Keys);
      SharesAddUp(m - {k}, f, shares - {k});
      MapSumRemove(m, k);
      MapSumRemove(shares, k);
      ShareAdds(m[k], MapSum(m - {k}), f);
    }
  }

  lemma ShareAdds(a: real, b: real, f: real)
    ensures Share(a + b, f) == Share(a, f) + Share(b, f)
  {
    TimesAdds(f, a, b);
  }

  /** The ledger as a whole moves by the non-dust intents times the fraction. */
  lemma LedgerMoves(intents: map<Strategy, real>, fills: seq<real>, parentQty: real)
    requires parentQty > 0.0
    ensures MapSum(CreditedAll(intents, fills, parentQty))
         == Share(MapSum(WithoutDust(intents)), Fraction(Sum(fills), parentQty))
  {
    var f := Fraction(Sum(fills), parentQty);
    NothingForDust(f);
    hide Share, Fraction, Deltas, MapSum;
    var w, c := WithoutDust(intents), CreditedAll(intents, fills, parentQty);
    forall s | s in intents ensures c[s] == Share(w[s], f) {
      AttributionTelescopes(fills, parentQty, intents[s]);
    }
    SharesAddUp(w, f, c);
  }

  lemma TimesIsZero(x: real, y: real)
    ensures Times(x, y) == 0.0 <==> x == 0.0 || y == 0.0
  {
    TimesNegates(x, y);
    TimesNegates(y, x);
    hide Times;
    if y > 0.0 {
      TimesSign(x, y);
    } else if y < 0.0 {
      TimesSign(x, -y);
    }
  }

  /** When the intents add up to the signed parent quantity, the ledger total
      moves by the signed venue fill, capped at the parent, exactly when the
      intents dropped as dust add up to zero (or nothing has been filled). */
  lemma LedgerFollowsVenue(intents: map<Strategy, real>, fills: seq<real>, parentQty: real, side: Side)
    requires parentQty > 0.0 && Sum(fills) >= 0.0
    requires MapSum(intents) == if side.Buy? then parentQty else -parentQty
    ensures var capped := if Sum(fills) <= parentQty then Sum(fills) else parentQty;
      var signed := if side.Buy? then capped else -capped;
      MapSum(CreditedAll(intents, fills, parentQty)) == signed
      <==> Sum(fills) == 0.0 || MapSum(WithoutDust(intents)) == MapSum(intents)
  {
    hide Share, Fraction, Deltas, MapSum, WithoutDust, CreditedAll;
    LedgerMoves(intents, fills, parentQty);
    FractionBounds(Sum(fills), parentQty);
    SameShare(MapSum(WithoutDust(intents)), MapSum(intents), parentQty, Fraction(Sum(fills), parentQty));
  }

  lemma SameShare(a: real, b: real, q: real, f: real)
    ensures Share(a, f) == Share(b, f) <==> f == 0.0 || a == b
    ensures Share(-q, f) == -Share(q, f)
    ensures f == 1.0 ==> Share(q, f) == q
  {
    TimesNegates(q, f);
    TimesAdds(f, a - b, b);
    TimesNegates(q, 1.0);
    TimesIsZero(a - b, f);
    TimesNegates(a, f);
    TimesNegates(b, f);
    TimesNegates(a - b, f);
    hide Times;
    assert (a - b) + b == a;
  }
}
