/** Rolling share of buyer-initiated volume: a deque with running sums, and the
    naive recomputation it stands for. */
module TakerShare {

  datatype Trade = Trade(ts: int, qty: real, isBuy: bool)

  ghost function Volume(trades: seq<Trade>): real {
    if trades == [] then 0.0 else Volume(trades[..|trades| - 1]) + trades[|trades| - 1].qty
  }

  ghost function BuyVolume(trades: seq<Trade>): real {
    if trades == [] then 0.0 else BuyVolume(trades[..|trades| - 1]) + Bought(trades[|trades| - 1])
  }

  function Bought(t: Trade): real { if t.isBuy then t.qty else 0.0 }

  lemma VolumeSnoc(trades: seq<Trade>, t: Trade)
    ensures Volume(trades + [t]) == Volume(trades) + t.qty
    ensures BuyVolume(trades + [t]) == BuyVolume(trades) + Bought(t)
  {
    assert (trades + [t])[..|trades|] == trades;
  }

  lemma {:induction false} VolumeUncons(trades: seq<Trade>)
    requires trades != []
    ensures Volume(trades) == trades[0].qty + Volume(trades[1..])
    ensures BuyVolume(trades) == Bought(trades[0]) + BuyVolume(trades[1..])
  {
    var init := trades[..|trades| - 1];
    if init == [] {
      assert trades[1..] == [];
      assert Volume(init) == 0.0 && BuyVolume(init) == 0.0;
    } else {
      VolumeUncons(init);
      assert trades[1..][..|trades| - 2] == init[1..];
    }
  }

  // --- Where the deque starts --------------------------------------------------

  /** First position from `lo` on whose trade is not older than `limit`. */
  ghost function Skip(trades: seq<Trade>, lo: nat, hi: nat, limit: int): (r: nat)
    requires lo <= hi <= |trades|
    ensures lo <= r <= hi
    ensures forall k :: lo <= k < r ==> trades[k].ts < limit
    ensures r < hi ==> trades[r].ts >= limit
    decreases hi - lo
  {
    if lo < hi && trades[lo].ts < limit then Skip(trades, lo + 1, hi, limit) else lo
  }

  /** Front of the deque once the first `n` trades are processed. */
  ghost function Front(trades: seq<Trade>, n: nat, cutoff: int): (r: nat)
    requires n <= |trades|
    ensures r <= n
  {
    if n == 0 then 0 else Skip(trades, Front(trades, n - 1, cutoff), n, trades[n - 1].ts - cutoff)
  }

  function Share(buy: real, total: real): real
    requires total > 0.0
  {
    buy / total
  }

  ghost function Emitted(window: seq<Trade>): seq<real> {
    if Volume(window) > 0.0 then [Share(BuyVolume(window), Volume(window))] else []
  }

  ghost function Shares(trades: seq<Trade>, n: nat, cutoff: int): seq<real>
    requires n <= |trades|
  {
    if n == 0 then [] else Shares(trades, n - 1, cutoff) + Emitted(trades[Front(trades, n, cutoff)..n])
  }

  lemma NothingYet(trades: seq<Trade>, cutoff: int)
    ensures Front(trades, 0, cutoff) == 0 && Shares(trades, 0, cutoff) == []
    ensures Volume([]) == 0.0 && BuyVolume([]) == 0.0
  {
  }

  lemma NextTrade(trades: seq<Trade>, i: nat, cutoff: int)
    requires i < |trades|
    ensures Front(trades, i + 1, cutoff) == Skip(trades, Front(trades, i, cutoff), i + 1, trades[i].ts - cutoff)
    ensures Shares(trades, i + 1, cutoff)
         == Shares(trades, i, cutoff) + Emitted(trades[Front(trades, i + 1, cutoff)..i + 1])
  {
  }

  lemma SkipStep(trades: seq<Trade>, lo: nat, hi: nat, limit: int)
    requires lo <= hi <= |trades|
    ensures Skip(trades, lo, hi, limit)
         == if lo < hi && trades[lo].ts < limit then Skip(trades, lo + 1, hi, limit) else lo
  {
  }

  /** The eviction loop of one trade: `lo` entries have been evicted before, and the
      deque holds the following ones up to the trade just added. */
  method Evict(trades: seq<Trade>, ghost n: nat, limit: int, window: seq<Trade>, buy: real, total: real, ghost lo: nat)
    returns (left: seq<Trade>, buyLeft: real, totalLeft: real)
    requires lo <= n <= |trades| && window == trades[lo..n]
    requires total == Volume(window) && buy == BuyVolume(window)
    ensures left == trades[Skip(trades, lo, n, limit)..n]
    ensures totalLeft == Volume(left) && buyLeft == BuyVolume(left)
  {
    hide Volume, BuyVolume, Skip;
    left, buyLeft, totalLeft := window, buy, total;
    ghost var front := lo;
    while left != [] && left[0].ts < limit
      invariant lo <= front <= n && left == trades[front..n]
      invariant Skip(trades, front, n, limit) == Skip(trades, lo, n, limit)
      invariant totalLeft == Volume(left) && buyLeft == BuyVolume(left)
      decreases |left|
    {
      VolumeUncons(left);
      SkipStep(trades, front, n, limit);
      var first := left[0];
      left := left[1..];
      front := front + 1;
      totalLeft := totalLeft - first.qty;
      if first.isBuy {
        buyLeft := buyLeft - first.qty;
      }
    }
    SkipStep(trades, front, n, limit);
  }

  /** _rolling_taker_buy_share.  `front` is the number of evicted trades: they leave in
      order, each once. */
  method RollingTakerBuyShare(trades: seq<Trade>, windowSec: int) returns (out: seq<real>, ghost front: nat)
    ensures out == Shares(trades, |trades|, windowSec * 1000)
    ensures front == Front(trades, |trades|, windowSec * 1000) <= |trades|
  {
    hide Share, Volume, BuyVolume, Skip, Front, Shares;
    NothingYet(trades, windowSec * 1000);
    var window: seq<Trade> := [];
    var buy, total := 0.0, 0.0;
    out, front := [], 0;
    var cutoffMs := windowSec * 1000;
    for i := 0 to |trades|
      invariant front == Front(trades, i, cutoffMs) && window == trades[front..i]
      invariant total == Volume(window) && buy == BuyVolume(window)
      invariant out == Shares(trades, i, cutoffMs)
    {
      var trade := trades[i];
      VolumeSnoc(window, trade);
      NextTrade(trades, i, cutoffMs);
      window := window + [trade];
      total := total + trade.qty;
      if trade.isBuy {
        buy := buy + trade.qty;
      }
      window, buy, total := Evict(trades, i + 1, trade.ts - cutoffMs, window, buy, total, front);
      front := Front(trades, i + 1, cutoffMs);
      if total > 0.0 {
        out := out + [Share(buy, total)];
      }
    }
  }

  // --- The naive recomputation -------------------------------------------------

  ghost predicate SortedByTime(trades: seq<Trade>) {
    forall i, j :: 0 <= i < j < |trades| ==> trades[i].ts <= trades[j].ts
  }

  ghost predicate PositiveSizes(trades: seq<Trade>) { forall t :: t in trades ==> t.qty > 0.0 }

  /** The trades not older than `limit`, in order. */
  ghost function Recent(trades: seq<Trade>, limit: int): seq<Trade> {
    if trades == [] then []
    else
      var init, last := trades[..|trades| - 1], trades[|trades| - 1];
      Recent(init, limit) + if last.ts >= limit then [last] else []
  }

  /** Trade `k` is too old for the window of trade `n - 1`. */
  predicate Old(trades: seq<Trade>, cutoff: int, k: nat, n: nat)
    requires k < n <= |trades|
  {
    trades[k].ts < trades[n - 1].ts - cutoff
  }

  /** For every window the trades too old for it are the first ones, and they stay too
      old for later windows. */
  ghost predicate OldTradesLeaveInOrder(trades: seq<Trade>, cutoff: int) {
    && (forall k: nat, l: nat, n: nat :: k < l < n <= |trades| && Old(trades, cutoff, l, n) ==>
          Old(trades, cutoff, k, n))
    && (forall k: nat, m: nat, n: nat :: k < m <= n <= |trades| && Old(trades, cutoff, k, m) ==>
          Old(trades, cutoff, k, n))
  }

  lemma SortedLeaveInOrder(trades: seq<Trade>, cutoff: int)
    requires SortedByTime(trades)
    ensures OldTradesLeaveInOrder(trades, cutoff)
  {
  }

  /** The deque starts right after the trades too old for its window. */
  ghost predicate FrontIsExact(trades: seq<Trade>, n: nat, cutoff: int)
    requires 0 < n <= |trades|
  {
    && (forall k: nat :: k < Front(trades, n, cutoff) ==> Old(trades, cutoff, k, n))
    && (forall k: nat :: Front(trades, n, cutoff) <= k < n ==> !Old(trades, cutoff, k, n))
  }

  lemma {:induction false} FrontIsOldest(trades: seq<Trade>, n: nat, cutoff: int)
    requires 0 < n <= |trades| && OldTradesLeaveInOrder(trades, cutoff)
    ensures FrontIsExact(trades, n, cutoff)
  {
    if n > 1 {
      FrontIsOldest(trades, n - 1, cutoff);
    }
    var front := Front(trades, n, cutoff);
    forall k: nat | k < front ensures Old(trades, cutoff, k, n) {
      if n > 1 && k < Front(trades, n - 1, cutoff) {
        assert Old(trades, cutoff, k, n - 1);
      }
    }
    forall k: nat | front <= k < n ensures !Old(trades, cutoff, k, n) {
      assert !Old(trades, cutoff, front, n);
    }
  }

  lemma {:induction false} RecentConcat(a: seq<Trade>, b: seq<Trade>, limit: int)
    ensures Recent(a + b, limit) == Recent(a, limit) + Recent(b, limit)
  {
    if b == [] {
      assert a + b == a;
    } else {
      var init, last := b[..|b| - 1], b[|b| - 1];
      RecentConcat(a, init, limit);
      assert (a + b)[..|a + b| - 1] == a + init;
    }
  }

  ghost predicate NoneOld(trades: seq<Trade>, limit: int) { forall i :: 0 <= i < |trades| ==> trades[i].ts >= limit }

  ghost predicate AllOld(trades: seq<Trade>, limit: int) { forall i :: 0 <= i < |trades| ==> trades[i].ts < limit }

  lemma OldSnoc(init: seq<Trade>, last: Trade, limit: int)
    ensures NoneOld(init + [last], limit) <==> NoneOld(init, limit) && last.ts >= limit
    ensures AllOld(init + [last], limit) <==> AllOld(init, limit) && last.ts < limit
    ensures NoneOld([], limit) && AllOld([], limit)
  {
    var all := init + [last];
    assert all[|init|] == last && forall i :: 0 <= i < |init| ==> all[i] == init[i];
  }

  lemma {:induction false} RecentKeeps(trades: seq<Trade>, limit: int)
    ensures |Recent(trades, limit)| <= |trades| && NoneOld(Recent(trades, limit), limit)
    ensures NoneOld(trades, limit) ==> Recent(trades, limit) == trades
    ensures Recent(trades, limit) == [] <==> AllOld(trades, limit)
  {
    if trades != [] {
      var init, last := trades[..|trades| - 1], trades[|trades| - 1];
      RecentKeeps(init, limit);
      hide NoneOld, AllOld;
      assert trades == init + [last] && Recent(init, limit) + [] == Recent(init, limit);
      OldSnoc(init, last, limit);
      OldSnoc(Recent(init, limit), last, limit);
    }
  }

  lemma SplitIsRecentIff(gone: seq<Trade>, kept: seq<Trade>, limit: int)
    ensures kept == Recent(gone + kept, limit) <==> AllOld(gone, limit) && NoneOld(kept, limit)
  {
    RecentConcat(gone, kept, limit);
    RecentKeeps(gone, limit);
    RecentKeeps(kept, limit);
    RecentKeeps(gone + kept, limit);
    hide Recent, AllOld, NoneOld;
    if kept == Recent(gone + kept, limit) {
      assert Recent(kept, limit) == kept;
      assert |Recent(gone, limit)| == 0;
    }
  }

  lemma ExactMeans(trades: seq<Trade>, n: nat, cutoff: int)
    requires 0 < n <= |trades|
    ensures var front, limit := Front(trades, n, cutoff), trades[n - 1].ts - cutoff;
      FrontIsExact(trades, n, cutoff) <==> AllOld(trades[..front], limit) && NoneOld(trades[front..n], limit)
  {
    var front, limit := Front(trades, n, cutoff), trades[n - 1].ts - cutoff;
    hide Front;
    var gone, kept := trades[..front], trades[front..n];
    if AllOld(gone, limit) {
      forall k: nat | k < front ensures Old(trades, cutoff, k, n) {
        assert gone[k] == trades[k];
      }
    }
    if NoneOld(kept, limit) {
      forall k: nat | front <= k < n ensures !Old(trades, cutoff, k, n) {
        assert kept[k - front] == trades[k];
      }
    }
    if FrontIsExact(trades, n, cutoff) {
      forall i | 0 <= i < |kept| ensures kept[i].ts >= limit {
        assert !Old(trades, cutoff, front + i, n);
      }
      forall i | 0 <= i < |gone| ensures gone[i].ts < limit {
        assert Old(trades, cutoff, i, n);
      }
    }
  }

  /** The deque holds exactly the trades seen so far that are no older than the window
      if and only if it starts right after those too old. */
  lemma DequeIsWindowIff(trades: seq<Trade>, n: nat, cutoff: int)
    requires 0 < n <= |trades|
    ensures trades[Front(trades, n, cutoff)..n] == Recent(trades[..n], trades[n - 1].ts - cutoff)
       <==> FrontIsExact(trades, n, cutoff)
  {
    var front, limit := Front(trades, n, cutoff), trades[n - 1].ts - cutoff;
    ExactMeans(trades, n, cutoff);
    hide Recent, Front, FrontIsExact, AllOld, NoneOld;
    assert trades[..n] == trades[..front] + trades[front..n];
    SplitIsRecentIff(trades[..front], trades[front..n], limit);
  }

  /** The deque is the window after every trade exactly when old trades leave in
      order, as they do when the trades are sorted by time. */
  lemma DequeHoldsTheWindowIff(trades: seq<Trade>, cutoff: int)
    ensures (forall n: nat :: 0 < n <= |trades| ==>
               trades[Front(trades, n, cutoff)..n] == Recent(trades[..n], trades[n - 1].ts - cutoff))
       <==> OldTradesLeaveInOrder(trades, cutoff)
    ensures SortedByTime(trades) ==> OldTradesLeaveInOrder(trades, cutoff)
  {
    forall n: nat | 0 < n <= |trades|
      ensures trades[Front(trades, n, cutoff)..n] == Recent(trades[..n], trades[n - 1].ts - cutoff)
         <==> FrontIsExact(trades, n, cutoff)
    {
      DequeIsWindowIff(trades, n, cutoff);
    }
    if SortedByTime(trades) {
      SortedLeaveInOrder(trades, cutoff);
    }
    hide Recent, SortedByTime;
    if OldTradesLeaveInOrder(trades, cutoff) {
      forall n: nat | 0 < n <= |trades| ensures FrontIsExact(trades, n, cutoff) {
        FrontIsOldest(trades, n, cutoff);
      }
    }
    if forall n: nat :: 0 < n <= |trades| ==> FrontIsExact(trades, n, cutoff) {
      ExactFrontsLeaveInOrder(trades, cutoff);
    }
  }

  lemma {:induction false} FrontGrows(trades: seq<Trade>, m: nat, n: nat, cutoff: int)
    requires m <= n <= |trades|
    ensures Front(trades, m, cutoff) <= Front(trades, n, cutoff)
    decreases n
  {
    if m < n {
      FrontGrows(trades, m, n - 1, cutoff);
    }
  }

  lemma ExactFrontsLeaveInOrder(trades: seq<Trade>, cutoff: int)
    requires forall n: nat :: 0 < n <= |trades| ==> FrontIsExact(trades, n, cutoff)
    ensures OldTradesLeaveInOrder(trades, cutoff)
  {
    hide Old;
    forall k: nat, l: nat, n: nat | k < l < n <= |trades| && Old(trades, cutoff, l, n)
      ensures Old(trades, cutoff, k, n)
    {
      assert FrontIsExact(trades, n, cutoff);
    }
    forall k: nat, m: nat, n: nat | k < m <= n <= |trades| && Old(trades, cutoff, k, m)
      ensures Old(trades, cutoff, k, n)
    {
      assert FrontIsExact(trades, m, cutoff) && FrontIsExact(trades, n, cutoff);
      FrontGrows(trades, m, n, cutoff);
    }
  }

  lemma {:induction false} VolumeBounds(trades: seq<Trade>)
    requires PositiveSizes(trades)
    ensures 0.0 <= BuyVolume(trades) <= Volume(trades)
    ensures trades != [] ==> Volume(trades) > 0.0
  {
    if trades != [] {
      VolumeBounds(trades[..|trades| - 1]);
    }
  }

  lemma ShareInRange(buy: real, total: real)
    requires 0.0 <= buy <= total && total > 0.0
    ensures 0.0 <= Share(buy, total) <= 1.0
  {
  }

  ghost function NaiveShare(trades: seq<Trade>, i: nat, cutoff: int): real
    requires i < |trades|
  {
    var w := Recent(trades[..i + 1], trades[i].ts - cutoff);
    if Volume(w) > 0.0 then Share(BuyVolume(w), Volume(w)) else 0.0
  }

  /** The share emitted for one trade. */
  lemma EmittedIsNaive(trades: seq<Trade>, n: nat, cutoff: int)
    requires 0 < n <= |trades| && FrontIsExact(trades, n, cutoff) && PositiveSizes(trades) && cutoff >= 0
    ensures Emitted(trades[Front(trades, n, cutoff)..n]) == [NaiveShare(trades, n - 1, cutoff)]
    ensures 0.0 <= NaiveShare(trades, n - 1, cutoff) <= 1.0
  {
    DequeIsWindowIff(trades, n, cutoff);
    assert !Old(trades, cutoff, n - 1, n);
    hide Share, Volume, BuyVolume, Recent, Front;
    var w := trades[Front(trades, n, cutoff)..n];
    VolumeBounds(w);
    ShareInRange(BuyVolume(w), Volume(w));
  }

  /** One share per trade, each the naive one and a proper fraction, whenever old trades
      leave in order. */
  lemma {:induction false} SharesAreNaive(trades: seq<Trade>, n: nat, cutoff: int)
    requires n <= |trades| && OldTradesLeaveInOrder(trades, cutoff) && PositiveSizes(trades) && cutoff >= 0
    ensures |Shares(trades, n, cutoff)| == n
    ensures forall i :: 0 <= i < n ==> Shares(trades, n, cutoff)[i] == NaiveShare(trades, i, cutoff)
    ensures forall i :: 0 <= i < n ==> 0.0 <= NaiveShare(trades, i, cutoff) <= 1.0
  {
    hide NaiveShare, Emitted, OldTradesLeaveInOrder, PositiveSizes, FrontIsExact;
    if n > 0 {
      SharesAreNaive(trades, n - 1, cutoff);
      FrontIsOldest(trades, n, cutoff);
      EmittedIsNaive(trades, n, cutoff);
    }
  }

  /** A trade out of time order keeps an older one behind it in the deque, so the
      naive window and the deque part company. */
  lemma UnsortedTradesDiffer()
    ensures var trades := [Trade(5000, 1.0, true), Trade(0, 1.0, true), Trade(5000, 1.0, false)];
      trades[Front(trades, 3, 1000)..3] == trades && Recent(trades, 4000) == [trades[0], trades[2]]
  {
    var trades := [Trade(5000, 1.0, true), Trade(0, 1.0, true), Trade(5000, 1.0, false)];
    assert Front(trades, 1, 1000) == 0 && Front(trades, 2, 1000) == 0;
    assert trades[..2][..1] == [trades[0]] && [trades[0]][..0] == [];
    assert Recent([trades[0]], 4000) == [trades[0]];
    assert Recent(trades[..2], 4000) == [trades[0]];
  }
}
