/** Close fills buffered per parent until the parent completes, and the session
    and rolling close statistics of the console. */
module ParentClose {
  import opened Arithmetic
  import opened Collections
  import opened Enums

  type ParentId = string

  datatype Action = Open | Close

  datatype Trade = Trade(
    id: string, ts: string, symbol: string, side: Side, qty: real, price: real, action: Action,
    entryPrice: Option<real>, exitPrice: Option<real>, pnl: Option<real>,
    strategyName: string, contributions: map<string, real>)

  datatype Pending = Pending(
    symbol: string, side: Side, totalPnl: real, totalQty: real, exitNotional: real,
    entryPrice: Option<real>, ts: string, strategyName: string, contributions: map<string, real>)

  type PendingMap = map<ParentId, Pending>

  function Pnl(t: Trade): real { match t.pnl case Some(p) => p case None => 0.0 }

  // --- Accumulating and finalizing -------------------------------------------------

  function Opened(t: Trade): Pending {
    Pending(t.symbol, t.side, 0.0, 0.0, 0.0, t.entryPrice, t.ts, t.strategyName, t.contributions)
  }

  function Accumulated(pending: PendingMap, id: ParentId, t: Trade, pnl: real): PendingMap {
    var acc := if id in pending then pending[id] else Opened(t);
    pending[id := acc.(
      totalPnl := acc.totalPnl + pnl,
      totalQty := acc.totalQty + t.qty,
      exitNotional := acc.exitNotional + (if t.exitPrice.Some? then Times(t.exitPrice.value, t.qty) else 0.0),
      entryPrice := if acc.entryPrice.None? then t.entryPrice else acc.entryPrice,
      ts := t.ts)]
  }

  /** The trade a completed parent leaves, unless nothing positive was closed. */
  function FinalTrade(pending: PendingMap, id: ParentId): Option<Trade> {
    if id !in pending || pending[id].totalQty <= 0.0 then None
    else
      var acc := pending[id];
      var exit := Ratio(acc.exitNotional, acc.totalQty);
      Some(Trade(id, acc.ts, acc.symbol, acc.side, acc.totalQty, exit, Close, acc.entryPrice, Some(exit),
                 Some(acc.totalPnl), acc.strategyName, acc.contributions))
  }

  class ParentCloses {
    var pending: PendingMap

    constructor ()
      ensures pending == map[]
    {
      pending := map[];
    }

    method AccumulateParentClose(id: ParentId, t: Trade, pnl: real)
      modifies this
      ensures pending == Accumulated(old(pending), id, t, pnl)
    {
      if id !in pending {
        pending := pending[id := Opened(t)];
      }
      var acc := pending[id];
      acc := acc.(totalPnl := acc.totalPnl + pnl);
      acc := acc.(totalQty := acc.totalQty + t.qty);
      if t.exitPrice.Some? {
        acc := acc.(exitNotional := acc.exitNotional + Times(t.exitPrice.value, t.qty));
      }
      if acc.entryPrice.None? && t.entryPrice.Some? {
        acc := acc.(entryPrice := t.entryPrice);
      }
      pending := pending[id := acc.(ts := t.ts)];
    }

    method FinalizeParentCloseTrade(id: ParentId) returns (t: Option<Trade>)
      modifies this
      ensures t == FinalTrade(old(pending), id) && pending == old(pending) - {id}
    {
      if id !in pending || pending[id].totalQty <= 0.0 {
        pending := pending - {id};
        return None;
      }
      var acc := pending[id];
      pending := pending - {id};
      var exitVwap := Ratio(acc.exitNotional, acc.totalQty);
      t := Some(Trade(id, acc.ts, acc.symbol, acc.side, acc.totalQty, exitVwap, Close, acc.entryPrice,
                      Some(exitVwap), Some(acc.totalPnl), acc.strategyName, acc.contributions));
    }
  }

  /** PnL waiting in the buffer. */
  ghost function PendingTotal(pending: PendingMap): real { MapSum(map k | k in pending :: pending[k].totalPnl) }

  /** A fill of `pnl` adds exactly that to the buffered total. */
  lemma AccumulateAddsPnl(pending: PendingMap, id: ParentId, t: Trade, pnl: real)
    ensures PendingTotal(Accumulated(pending, id, t, pnl)) == PendingTotal(pending) + pnl
  {
    var totals := map k | k in pending :: pending[k].totalPnl;
    var next := Accumulated(pending, id, t, pnl);
    assert (map k | k in next :: next[k].totalPnl) == totals[id := next[id].totalPnl];
    MapSumUpdate(totals, id, next[id].totalPnl);
  }

  /** PnL a completion drops: the buffered total of a parent whose closed quantity
      is not positive. */
  function LostBy(pending: PendingMap, id: ParentId): real {
    if id in pending && pending[id].totalQty <= 0.0 then pending[id].totalPnl else 0.0
  }

  /** A completion moves the buffered total into the trade it leaves, or loses it. */
  lemma FinalizeMovesTotal(pending: PendingMap, id: ParentId)
    ensures PendingTotal(pending)
         == PendingTotal(pending - {id}) + LostBy(pending, id)
          + (if FinalTrade(pending, id).Some? then Pnl(FinalTrade(pending, id).value) else 0.0)
  {
    var totals := map k | k in pending :: pending[k].totalPnl;
    assert (map k | k in pending - {id} :: (pending - {id})[k].totalPnl) == totals - {id};
    if id in pending {
      MapSumRemove(totals, id);
    } else {
      assert totals - {id} == totals;
    }
  }

  // --- Session statistics ------------------------------------------------------------

  datatype Stats = Stats(wins: nat, losses: nat, breakevens: nat, winRate: real,
                         grossWin: real, grossLoss: real, profitFactor: Option<real>)

  function Percent(part: nat, whole: nat): real {
    if whole > 0 then Ratio(part as real, whole as real) * 100.0 else 0.0
  }

  function Factor(grossWin: real, grossLoss: real): Option<real> {
    if grossLoss > 0.0 then Some(Ratio(grossWin, grossLoss)) else None
  }

  function MakeStats(wins: nat, losses: nat, breakevens: nat, grossWin: real, grossLoss: real): Stats {
    Stats(wins, losses, breakevens, Percent(wins, wins + losses + breakevens), grossWin, grossLoss,
          Factor(grossWin, grossLoss))
  }

  /** bumpKpiOnRealizedClose */
  function Bumped(s: Stats, pnl: real): Stats {
    MakeStats(s.wins + (if pnl > 0.0 then 1 else 0), s.losses + (if pnl < 0.0 then 1 else 0),
              s.breakevens + (if pnl == 0.0 then 1 else 0),
              s.grossWin + (if pnl > 0.0 then pnl else 0.0), s.grossLoss + (if pnl < 0.0 then -pnl else 0.0))
  }

  function Net(s: Stats): real { s.grossWin - s.grossLoss }

  function Appended<T>(s: seq<T>, x: T, cap: nat): seq<T> {
    if |s| + 1 <= cap then [x] + s else ([x] + s)[..cap]
  }

  // --- Rolling statistics --------------------------------------------------------------

  ghost function Count(trades: seq<Trade>, sign: int): nat {
    if trades == [] then 0
    else Count(trades[..|trades| - 1], sign) + (if Signum(Pnl(trades[|trades| - 1])) == sign then 1 else 0)
  }

  function Signum(x: real): int { if x > 0.0 then 1 else if x < 0.0 then -1 else 0 }

  /** Total size of the PnLs of the given sign. */
  ghost function Gross(trades: seq<Trade>, sign: int): real {
    if trades == [] then 0.0
    else
      var p := Pnl(trades[|trades| - 1]);
      Gross(trades[..|trades| - 1], sign) + (if Signum(p) == sign then sign as real * p else 0.0)
  }

  ghost function Recount(trades: seq<Trade>): Stats {
    MakeStats(Count(trades, 1), Count(trades, -1), Count(trades, 0), Gross(trades, 1), Gross(trades, -1))
  }

  lemma {:induction false} EveryTradeCounted(trades: seq<Trade>)
    ensures Count(trades, 1) + Count(trades, -1) + Count(trades, 0) == |trades|
  {
    if trades != [] {
      EveryTradeCounted(trades[..|trades| - 1]);
    }
  }

  /** Win rate and profit factor: the share of trades that won, in percent, and gross win
      over gross loss, absent without a loss. */
  lemma StatsMeaning(trades: seq<Trade>)
    ensures var r := Recount(trades);
      && Times(r.winRate, |trades| as real) == 100.0 * r.wins as real
      && (r.profitFactor.Some? <==> r.grossLoss > 0.0)
      && (r.profitFactor.Some? ==> Times(r.profitFactor.value, r.grossLoss) == r.grossWin)
  {
    EveryTradeCounted(trades);
    var wins, n := Count(trades, 1), |trades|;
    if n > 0 {
      RatioTimes(wins as real, n as real);
      assert Times(Ratio(wins as real, n as real) * 100.0, n as real)
          == Times(Ratio(wins as real, n as real), n as real) * 100.0;
    }
    if Gross(trades, -1) > 0.0 {
      RatioTimes(Gross(trades, 1), Gross(trades, -1));
    }
    hide Times, Ratio, Count, Gross;
  }

  /** Bumping the statistics trade by trade is recounting the list. */
  lemma BumpIsRecount(trades: seq<Trade>, t: Trade)
    ensures Bumped(Recount(trades), Pnl(t)) == Recount(trades + [t])
  {
    assert (trades + [t])[..|trades|] == trades;
    hide Percent, Factor;
  }

  /** rollingKpiFromRealized: the counters of one pass are a recount of the list. */
  method RollingKpiFromRealized(realized: seq<Trade>) returns (r: Stats)
    ensures r == Recount(realized)
  {
    var winCount, lossCount, breakevenCount := 0, 0, 0;
    var grossWin, grossLoss := 0.0, 0.0;
    for i := 0 to |realized|
      invariant winCount == Count(realized[..i], 1) && lossCount == Count(realized[..i], -1)
      invariant breakevenCount == Count(realized[..i], 0)
      invariant grossWin == Gross(realized[..i], 1) && grossLoss == Gross(realized[..i], -1)
    {
      var p := Pnl(realized[i]);
      assert realized[..i + 1][..i] == realized[..i];
      if p > 0.0 {
        grossWin := grossWin + p;
        winCount := winCount + 1;
      } else if p < 0.0 {
        grossLoss := grossLoss - p;
        lossCount := lossCount + 1;
      } else {
        breakevenCount := breakevenCount + 1;
      }
    }
    assert realized[..|realized|] == realized;
    EveryTradeCounted(realized);
    var winRate := if |realized| > 0 then Ratio(winCount as real, |realized| as real) * 100.0 else 0.0;
    r := Stats(winCount, lossCount, breakevenCount, winRate, grossWin, grossLoss, Factor(grossWin, grossLoss));
  }

  /** Gross win minus gross loss of the rolling list is the plain sum of its PnL. */
  ghost function PnlSum(trades: seq<Trade>): real {
    if trades == [] then 0.0 else PnlSum(trades[..|trades| - 1]) + Pnl(trades[|trades| - 1])
  }

  lemma {:induction false} RecountNetIsPnlSum(trades: seq<Trade>)
    ensures Net(Recount(trades)) == PnlSum(trades)
    ensures Recount(trades).grossWin >= 0.0 && Recount(trades).grossLoss >= 0.0
  {
    if trades != [] {
      RecountNetIsPnlSum(trades[..|trades| - 1]);
      hide Percent, Factor;
    }
  }
}
