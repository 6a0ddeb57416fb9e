/** Order-book resync after a market-data reconnect: the debounced pending set,
    the flush loop and its fixed-size worker pool, interleaved step by step.
    A step runs from one suspension point to the next. */
module BookResync {
  import opened Arithmetic
  import opened Collections

  type Symbol = string

  datatype Runner = Fetching | Busy(index: nat) | Exited

  /** run_book_resync_workers: `next` is the position of the shared iterator. */
  datatype Pool = Pool(batch: seq<Symbol>, concurrency: int, next: nat, runners: seq<Runner>)

  datatype PoolStep =
    | Fetch(r: nat)                       // runner r asks the iterator for a symbol
    | Complete(r: nat)                    // its snapshot succeeded, failed or timed out

  ghost predicate PoolEnabled(p: Pool, st: PoolStep) {
    st.r < |p.runners| && (if st.Fetch? then p.runners[st.r].Fetching? else p.runners[st.r].Busy?)
  }

  ghost function PoolApply(p: Pool, st: PoolStep): Pool
    requires PoolEnabled(p, st)
  {
    if st.Complete? then p.(runners := p.runners[st.r := Fetching])
    else if p.next < |p.batch| then p.(next := p.next + 1, runners := p.runners[st.r := Busy(p.next)])
    else p.(runners := p.runners[st.r := Exited])
  }

  datatype Task =
    | NoTask
    | Debouncing                          // asleep before the first flush
    | Testing                             // at the loop head, lock held
    | AwaitingTurn(batch: seq<Symbol>)    // waiting for the serial resync lock
    | Resyncing(pool: Pool)

  datatype Entry =
    | Reported(symbols: set<Symbol>)
    | Attempted(symbol: Symbol)
    | Cancelled(left: set<Symbol>, taken: seq<Symbol>)  // still pending; in the task, not attempted yet

  /** `log` records reconnect reports, the starts of snapshot attempts and
      cancellations, in order of time. */
  datatype State = State(pending: set<Symbol>, task: Task, log: seq<Entry>)

  datatype Step =
    | Report(symbols: set<Symbol>)        // on_market_ws_reconnect
    | WakeUp                              // debounce sleep over
    | TakeBatch(batch: seq<Symbol>)       // sorted(pending); pending.clear()
    | StartPool(concurrency: int)         // serial lock acquired
    | Work(step: PoolStep)                // one runner moves
    | EndPool                             // every runner has returned
    | EndFlush                            // loop test finds nothing pending
    | Cancel                              // cancel_reconnect_resync_task

  ghost predicate Enumerates(batch: seq<Symbol>, s: set<Symbol>) {
    && (forall x :: x in batch <==> x in s)
    && (forall i, j :: 0 <= i < j < |batch| ==> batch[i] != batch[j])
    && |batch| == |s|
  }

  /** min(max(1, concurrency), len(symbols)) */
  function Limit(concurrency: int, n: nat): nat {
    var c := MaxInt(1, concurrency);
    if c < n then c else n
  }

  ghost predicate Enabled(s: State, step: Step) {
    match step
    case Report(_) => true
    case WakeUp => s.task.Debouncing?
    case TakeBatch(batch) => s.task.Testing? && s.pending != {} && Enumerates(batch, s.pending)
    case StartPool(_) => s.task.AwaitingTurn?
    case Work(st) => s.task.Resyncing? && PoolEnabled(s.task.pool, st)
    case EndPool => s.task.Resyncing? && forall r :: 0 <= r < |s.task.pool.runners| ==> s.task.pool.runners[r].Exited?
    case EndFlush => s.task.Testing? && s.pending == {}
    case Cancel => !s.task.NoTask?
  }

  ghost function Apply(s: State, step: Step): State
    requires Enabled(s, step)
  {
    match step
    case Report(symbols) =>
      s.(pending := s.pending + symbols, log := s.log + [Reported(symbols)],
         task := if s.task.NoTask? then Debouncing else s.task)
    case WakeUp => s.(task := Testing)
    case TakeBatch(batch) => s.(pending := {}, task := AwaitingTurn(batch))
    case StartPool(concurrency) =>
      var n := Limit(concurrency, |s.task.batch|);
      s.(task := Resyncing(Pool(s.task.batch, concurrency, 0, seq(n, _ => Fetching))))
    case Work(st) =>
      var p := s.task.pool;
      s.(task := Resyncing(PoolApply(p, st)),
         log := if st.Fetch? && p.next < |p.batch| then s.log + [Attempted(p.batch[p.next])] else s.log)
    case EndPool => s.(task := Testing)
    case EndFlush => s.(task := NoTask)
    case Cancel => s.(task := NoTask, log := s.log + [Cancelled(s.pending, Unstarted(s.task))])
  }

  const START := State({}, NoTask, [])

  ghost predicate Next(s: State, t: State) {
    exists step :: Enabled(s, step) && t == Apply(s, step)
  }

  ghost predicate IsRun(run: seq<State>) {
    && |run| > 0 && run[0] == START
    && forall i :: 0 <= i < |run| - 1 ==> Next(run[i], run[i + 1])
  }

  // --- The worker pool ------------------------------------------------------

  ghost predicate PoolInv(p: Pool) {
    && p.next <= |p.batch| && |p.batch| >= 1 && |p.runners| == Limit(p.concurrency, |p.batch|)
    && (forall r :: 0 <= r < |p.runners| && p.runners[r].Busy? ==> p.runners[r].index < p.next)
    && (forall q, r :: 0 <= q < r < |p.runners| && p.runners[q].Busy? && p.runners[r].Busy? ==>
          p.runners[q].index != p.runners[r].index)
    && ((exists r :: 0 <= r < |p.runners| && p.runners[r].Exited?) ==> p.next == |p.batch|)
    && (forall i, j :: 0 <= i < j < |p.batch| ==> p.batch[i] != p.batch[j])
  }

  /** The symbols whose attempt the pool has not started yet. */
  function Unstarted(t: Task): seq<Symbol> {
    match t
    case AwaitingTurn(batch) => batch
    case Resyncing(p) => if p.next <= |p.batch| then p.batch[p.next..] else []
    case _ => []
  }

  // --- No request is lost ---------------------------------------------------

  /** An attempt for `x` was logged after position `i`. */
  ghost predicate AttemptedAfter(log: seq<Entry>, i: nat, x: Symbol) {
    exists j :: i < j < |log| && log[j] == Attempted(x)
  }

  /** A cancellation after position `i` took `x` out of the task before its attempt. */
  ghost predicate TakenAfter(log: seq<Entry>, i: nat, x: Symbol) {
    exists j :: i < j < |log| && log[j].Cancelled? && x in log[j].taken
  }

  /** Where the symbol of the report at position `i` can be. */
  ghost predicate Accounted(s: State, i: nat, x: Symbol) {
    AttemptedAfter(s.log, i, x) || x in s.pending || x in Unstarted(s.task) || TakenAfter(s.log, i, x)
  }

  ghost predicate Covered(s: State) {
    forall i, x :: 0 <= i < |s.log| && s.log[i].Reported? && x in s.log[i].symbols ==> Accounted(s, i, x)
  }

  /** Nothing was reported or attempted since the last cancellation. */
  ghost predicate JustCancelled(log: seq<Entry>) {
    log != [] && log[|log| - 1].Cancelled?
  }

  ghost predicate TaskInv(s: State) {
    && (s.task.NoTask? ==> s.pending == if JustCancelled(s.log) then s.log[|s.log| - 1].left else {})
    && (JustCancelled(s.log) ==> s.task.NoTask?)
    && (s.task.AwaitingTurn? ==> |s.task.batch| >= 1)
    && (s.task.AwaitingTurn? ==> forall i, j :: 0 <= i < j < |s.task.batch| ==> s.task.batch[i] != s.task.batch[j])
    && (s.task.Resyncing? ==> PoolInv(s.task.pool))
  }

  lemma LogGrows(s: seq<Entry>, e: Entry, i: nat, x: Symbol)
    ensures AttemptedAfter(s, i, x) ==> AttemptedAfter(s + [e], i, x)
    ensures TakenAfter(s, i, x) ==> TakenAfter(s + [e], i, x)
  {
    if AttemptedAfter(s, i, x) {
      var j :| i < j < |s| && s[j] == Attempted(x);
      assert (s + [e])[j] == Attempted(x);
    }
    if TakenAfter(s, i, x) {
      var j :| i < j < |s| && s[j].Cancelled? && x in s[j].taken;
      assert (s + [e])[j] == s[j];
    }
  }

  lemma StepKeepsPool(p: Pool, st: PoolStep)
    requires PoolInv(p) && PoolEnabled(p, st)
    ensures PoolInv(PoolApply(p, st))
  {
    var q := PoolApply(p, st);
    assert forall k :: 0 <= k < |p.runners| && k != st.r ==> q.runners[k] == p.runners[k];
  }

  lemma StepKeepsTaskInv(s: State, step: Step)
    requires TaskInv(s) && Enabled(s, step)
    ensures TaskInv(Apply(s, step))
  {
    if step.Work? {
      StepKeepsPool(s.task.pool, step.step);
      hide PoolInv;
    }
  }

  lemma StepKeepsCovered(s: State, step: Step)
    requires TaskInv(s) && Covered(s) && Enabled(s, step)
    ensures Covered(Apply(s, step))
  {
    var t := Apply(s, step);
    forall i, x | 0 <= i < |t.log| && t.log[i].Reported? && x in t.log[i].symbols
      ensures Accounted(t, i, x)
    {
      if i < |s.log| {
        assert t.log[i] == s.log[i];
        CoverageMoves(s, step, i, x);
      }
    }
  }

  /** Where the symbol of one report goes in one step. */
  lemma CoverageMoves(s: State, step: Step, i: nat, x: Symbol)
    requires TaskInv(s) && Enabled(s, step) && i < |s.log| && Accounted(s, i, x)
    ensures Accounted(Apply(s, step), i, x)
  {
    var t := Apply(s, step);
    if t.log != s.log { LogGrows(s.log, t.log[|s.log|], i, x); }
    if AttemptedAfter(s.log, i, x) || TakenAfter(s.log, i, x) {
    } else if step.Work? && step.step.Fetch? && x in Unstarted(s.task) && s.task.pool.next < |s.task.pool.batch| {
      var p := s.task.pool;
      var rest := p.batch[p.next..];
      assert rest[0] == p.batch[p.next] && rest[1..] == p.batch[p.next + 1..];
      assert x == rest[0] || x in rest[1..];
      assert t.log[|s.log|] == Attempted(p.batch[p.next]);
    } else if step.StartPool? {
      assert s.task.batch[0..] == s.task.batch;
    } else if step.EndPool? {
      assert s.task.pool.runners[0].Exited?;
    } else if step.Cancel? {
      assert t.log[|s.log|] == Cancelled(s.pending, Unstarted(s.task));
    }
  }

  lemma {:induction false} RunKeepsInv(run: seq<State>, i: nat)
    requires IsRun(run) && i < |run|
    ensures TaskInv(run[i]) && Covered(run[i])
  {
    if i > 0 {
      assert Next(run[i - 1], run[i]);
      var step :| Enabled(run[i - 1], step) && run[i] == Apply(run[i - 1], step);
      RunKeepsInv(run, i - 1);
      StepKeepsTaskInv(run[i - 1], step);
      StepKeepsCovered(run[i - 1], step);
    }
  }

  /** On every run, with any cancellations, each reported symbol has had an attempt
      that started after the report, is pending, is in the batch of the task, or was
      taken by a cancellation after the report.  With no task nothing is pending but
      what a cancellation left, and only until the next report. */
  lemma WhereReportsGo(run: seq<State>, i: nat)
    requires IsRun(run) && i < |run|
    ensures forall k, x :: 0 <= k < |run[i].log| && run[i].log[k].Reported? && x in run[i].log[k].symbols ==>
              Accounted(run[i], k, x)
    ensures var log := run[i].log;
      run[i].task.NoTask? ==> run[i].pending == if JustCancelled(log) then log[|log| - 1].left else {}
  {
    RunKeepsInv(run, i);
  }

  /** Nothing is pending, and every symbol of every report so far has had a snapshot
      attempt that started after the report. */
  ghost predicate NothingLost(s: State) {
    s.pending == {} && forall k, x :: 0 <= k < |s.log| && s.log[k].Reported? && x in s.log[k].symbols ==>
      AttemptedAfter(s.log, k, x)
  }

  /** Every report of `x` so far was followed by an attempt. */
  ghost predicate Served(log: seq<Entry>, x: Symbol) {
    forall i :: 0 <= i < |log| && log[i].Reported? && x in log[i].symbols ==> AttemptedAfter(log, i, x)
  }

  /** Barring cancellation, nothing is lost whenever the debounce task is not running. */
  lemma NoRequestLost(run: seq<State>, i: nat)
    requires IsRun(run) && i < |run| && run[i].task.NoTask?
    requires forall k :: 0 <= k < |run[i].log| ==> !run[i].log[k].Cancelled?
    ensures NothingLost(run[i])
  {
    RunKeepsInv(run, i);
  }

  ghost function InFlight(p: Pool): set<nat> { set r: nat | r < |p.runners| && p.runners[r].Busy? }

  lemma {:induction false} IndicesBelow(s: set<nat>, n: nat)
    requires forall r :: r in s ==> r < n
    ensures |s| <= n
  {
    if n == 0 {
      assert s == {};
    } else {
      IndicesBelow(s - {n - 1}, n - 1);
      assert s <= s - {n - 1} + {n - 1};
      SubsetSize(s, s - {n - 1} + {n - 1});
    }
  }

  /** A pool keeps the limit it was started with. */
  lemma {:induction false} PoolKeepsLimit(run: seq<State>, i: nat, j: nat, concurrency: int)
    requires IsRun(run) && i < j < |run| && Enabled(run[i], StartPool(concurrency))
    requires run[i + 1] == Apply(run[i], StartPool(concurrency))
    requires forall k :: i < k <= j ==> run[k].task.Resyncing?
    ensures run[j].task.pool.concurrency == concurrency
  {
    if i + 1 < j {
      PoolKeepsLimit(run, i, j - 1, concurrency);
      assert Next(run[j - 1], run[j]);
      var step :| Enabled(run[j - 1], step) && run[j] == Apply(run[j - 1], step);
    }
  }

  /** From the start of a pool to its end, the attempts in flight are for different
      symbols and at most as many as the concurrency it was started with, or one. */
  lemma AttemptsInFlight(run: seq<State>, i: nat, j: nat, concurrency: int)
    requires IsRun(run) && i < j < |run| && Enabled(run[i], StartPool(concurrency))
    requires run[i + 1] == Apply(run[i], StartPool(concurrency))
    requires forall k :: i < k <= j ==> run[k].task.Resyncing?
    ensures var p := run[j].task.pool;
      && |InFlight(p)| <= MaxInt(1, concurrency)
      && (forall r :: r in InFlight(p) ==> p.runners[r].index < |p.batch|)
      && (forall q, r :: q in InFlight(p) && r in InFlight(p) && q != r ==>
            p.batch[p.runners[q].index] != p.batch[p.runners[r].index])
  {
    RunKeepsInv(run, j);
    PoolKeepsLimit(run, i, j, concurrency);
    var p := run[j].task.pool;
    IndicesBelow(InFlight(p), |p.runners|);
    forall q, r | q in InFlight(p) && r in InFlight(p) && q != r
      ensures p.batch[p.runners[q].index] != p.batch[p.runners[r].index]
    {
      assert p.runners[q].index != p.runners[r].index;
    }
  }

  // --- One pool from start to finish ----------------------------------------

  /** The symbols handed out by a sequence of pool steps, in order. */
  ghost predicate PoolRun(p: Pool, steps: seq<PoolStep>, handed: seq<Symbol>, q: Pool)
    decreases |steps|
  {
    if steps == [] then handed == [] && p == q
    else if !PoolEnabled(p, steps[0]) then false
    else if steps[0].Fetch? && p.next < |p.batch| then
      handed != [] && handed[0] == p.batch[p.next] && PoolRun(PoolApply(p, steps[0]), steps[1..], handed[1..], q)
    else PoolRun(PoolApply(p, steps[0]), steps[1..], handed, q)
  }

  /** However the runners interleave, the pool hands out the batch in order; once
      every runner has returned, each symbol was handed to exactly one runner. */
  lemma {:induction false} PoolHandsOutBatch(p: Pool, steps: seq<PoolStep>, handed: seq<Symbol>, q: Pool)
    requires PoolInv(p) && PoolRun(p, steps, handed, q)
    ensures PoolInv(q) && q.batch == p.batch && p.next <= q.next && |q.runners| == |p.runners|
    ensures handed == p.batch[p.next..q.next]
    ensures (forall r :: 0 <= r < |q.runners| ==> q.runners[r].Exited?) ==> handed == p.batch[p.next..]
    decreases |steps|
  {
    if steps == [] {
      assert p.batch[p.next..p.next] == [];
    } else {
      StepKeepsPool(p, steps[0]);
      var p' := PoolApply(p, steps[0]);
      if steps[0].Fetch? && p.next < |p.batch| {
        PoolHandsOutBatch(p', steps[1..], handed[1..], q);
        assert p.batch[p.next..q.next] == [p.batch[p.next]] + p.batch[p.next + 1..q.next];
        assert handed == [handed[0]] + handed[1..];
      } else {
        PoolHandsOutBatch(p', steps[1..], handed, q);
      }
    }
    if forall r :: 0 <= r < |q.runners| ==> q.runners[r].Exited? {
      assert q.runners[0].Exited?;
      assert p.batch[p.next..|p.batch|] == p.batch[p.next..];
    }
  }

  // --- The flush finishes ---------------------------------------------------

  ghost function Weight(runners: seq<Runner>): nat {
    if runners == [] then 0
    else Weight(runners[..|runners| - 1]) + RunnerWeight(runners[|runners| - 1])
  }

  ghost function RunnerWeight(r: Runner): nat {
    match r case Fetching => 1 case Busy(_) => 2 case Exited => 0
  }

  lemma {:induction false} WeightUpdate(runners: seq<Runner>, r: nat, w: Runner)
    requires r < |runners|
    ensures Weight(runners[r := w]) == Weight(runners) - RunnerWeight(runners[r]) + RunnerWeight(w)
  {
    var n := |runners| - 1;
    var updated := runners[r := w];
    if r == n {
      assert updated[..n] == runners[..n];
    } else {
      WeightUpdate(runners[..n], r, w);
      assert updated[..n] == runners[..n][r := w];
    }
  }

  lemma {:induction false} WeightOfFetching(n: nat)
    ensures Weight(seq(n, _ => Fetching)) == n
  {
    if n > 0 {
      WeightOfFetching(n - 1);
      assert seq(n, _ => Fetching)[..n - 1] == seq(n - 1, _ => Fetching);
    }
  }

  ghost function TaskWork(t: Task): nat {
    match t
    case NoTask => 0
    case Testing => 1
    case Debouncing => 2
    case AwaitingTurn(batch) => 3 + 4 * |batch|
    case Resyncing(p) => 2 + (if p.next <= |p.batch| then 3 * (|p.batch| - p.next) else 0) + Weight(p.runners)
  }

  /** Work left if nothing more is reported. */
  ghost function Remaining(s: State): nat { TaskWork(s.task) + 8 * |s.pending| }

  /** Every step other than a new report uses up work. */
  lemma StepUsesWork(s: State, step: Step)
    requires TaskInv(s) && Enabled(s, step) && !step.Report?
    ensures Remaining(Apply(s, step)) < Remaining(s)
  {
    match step
    case StartPool(c) => WeightOfFetching(Limit(c, |s.task.batch|));
    case Work(st) =>
      WeightUpdate(s.task.pool.runners, st.r, Busy(s.task.pool.next));
      WeightUpdate(s.task.pool.runners, st.r, Exited);
      WeightUpdate(s.task.pool.runners, st.r, Fetching);
    case TakeBatch(_) => assert |s.pending| >= 1;
    case _ =>
  }

  lemma Enumeration(s: set<Symbol>) returns (batch: seq<Symbol>)
    ensures Enumerates(batch, s)
    decreases |s|
  {
    if s == {} {
      batch := [];
    } else {
      var x := AnyOf(s);
      var rest := Enumeration(s - {x});
      batch := [x] + rest;
    }
  }

  /** As long as a debounce task exists it can take a step, so without new reports it ends
      after at most Remaining(s) steps. */
  lemma FlushNeverStuck(s: State) returns (step: Step)
    requires TaskInv(s) && !s.task.NoTask?
    ensures Enabled(s, step) && !step.Report? && !step.Cancel?
  {
    match s.task
    case Debouncing => step := WakeUp;
    case Testing =>
      if s.pending == {} {
        step := EndFlush;
      } else {
        var batch := Enumeration(s.pending);
        step := TakeBatch(batch);
      }
    case AwaitingTurn(_) => step := StartPool(1);
    case Resyncing(p) =>
      if r :| 0 <= r < |p.runners| && p.runners[r].Fetching? {
        step := Work(Fetch(r));
      } else if r :| 0 <= r < |p.runners| && p.runners[r].Busy? {
        step := Work(Complete(r));
      } else {
        step := EndPool;
      }
  }

  // --- Cancellation -----------------------------------------------------------

  /** Whatever was cancelled before, nothing is lost when the debounce task is not
      running if and only if the last step did not leave symbols pending and every
      symbol a cancellation took had its attempts all the same: because it was started
      after the last report by an earlier batch, or reported anew since. */
  lemma NothingLostIff(run: seq<State>, i: nat)
    requires IsRun(run) && i < |run| && run[i].task.NoTask?
    ensures var log := run[i].log;
      NothingLost(run[i]) <==>
      && (JustCancelled(log) ==> log[|log| - 1].left == {})
      && (forall j, x :: 0 <= j < |log| && log[j].Cancelled? && x in log[j].taken ==> Served(log, x))
  {
    RunKeepsInv(run, i);
    var log := run[i].log;
    if (JustCancelled(log) ==> log[|log| - 1].left == {}) &&
       forall j, x :: 0 <= j < |log| && log[j].Cancelled? && x in log[j].taken ==> Served(log, x) {
      forall k, x | 0 <= k < |log| && log[k].Reported? && x in log[k].symbols ensures AttemptedAfter(log, k, x) {
        assert Accounted(run[i], k, x);
        if TakenAfter(log, k, x) {
          var j :| k < j < |log| && log[j].Cancelled? && x in log[j].taken;
          assert Served(log, x);
        }
      }
    }
    hide AttemptedAfter;
  }

  /** Right after a cancellation nothing is lost if and only if nothing was pending,
      every symbol the task had still to attempt had an attempt after its last report,
      and so had every symbol an earlier cancellation took. */
  lemma CancelLosesNothingIff(run: seq<State>, i: nat)
    requires IsRun(run) && i + 1 < |run| && Enabled(run[i], Cancel) && run[i + 1] == Apply(run[i], Cancel)
    ensures var s := run[i];
      NothingLost(run[i + 1]) <==>
      && s.pending == {}
      && (forall x :: x in Unstarted(s.task) ==> Served(s.log, x))
      && (forall j, x :: 0 <= j < |s.log| && s.log[j].Cancelled? && x in s.log[j].taken ==> Served(s.log, x))
  {
    NothingLostIff(run, i + 1);
    var s, t := run[i], run[i + 1];
    var last := Cancelled(s.pending, Unstarted(s.task));
    forall x ensures Served(t.log, x) <==> Served(s.log, x) {
      ServedSnoc(s.log, last, x);
    }
    hide Served;
    assert forall j :: 0 <= j < |s.log| ==> t.log[j] == s.log[j];
    assert t.log[|s.log|] == last;
  }

  lemma ServedSnoc(log: seq<Entry>, e: Entry, x: Symbol)
    requires e.Cancelled?
    ensures Served(log + [e], x) <==> Served(log, x)
  {
    var longer := log + [e];
    assert forall j :: 0 <= j < |log| ==> longer[j] == log[j];
    forall i: nat | i < |log| ensures AttemptedAfter(longer, i, x) <==> AttemptedAfter(log, i, x) {
      LogGrows(log, e, i, x);
    }
  }

  /** The batch taken from the pending set is gone with the task. */
  lemma CancellationLosesABatch() returns (run: seq<State>)
    ensures IsRun(run) && run[|run| - 1].task.NoTask? && run[|run| - 1].pending == {}
    ensures run[|run| - 1].log == [Reported({"BTC"}), Cancelled({}, ["BTC"])]
    ensures !NothingLost(run[|run| - 1])
  {
    var s1 := Apply(START, Report({"BTC"}));
    var s2 := Apply(s1, WakeUp);
    assert Enumerates(["BTC"], s2.pending) by { assert s2.pending == {"BTC"}; }
    var s3 := Apply(s2, TakeBatch(["BTC"]));
    var s4 := Apply(s3, Cancel);
    assert Next(START, s1) && Next(s1, s2) && Next(s2, s3) && Next(s3, s4);
    run := [START, s1, s2, s3, s4];
    assert s4.log[0].Reported? && "BTC" in s4.log[0].symbols && !AttemptedAfter(s4.log, 0, "BTC");
  }

  /** A task cancelled while it sleeps leaves the symbols pending, with no task to take
      them up before the next report. */
  lemma CancellationLeavesPending() returns (run: seq<State>)
    ensures IsRun(run) && run[|run| - 1].task.NoTask? && run[|run| - 1].pending == {"BTC"}
    ensures run[|run| - 1].log == [Reported({"BTC"}), Cancelled({"BTC"}, [])]
    ensures forall step :: Enabled(run[|run| - 1], step) ==> step.Report?
  {
    var s1 := Apply(START, Report({"BTC"}));
    var s2 := Apply(s1, Cancel);
    assert Next(START, s1) && Next(s1, s2);
    run := [START, s1, s2];
  }
}
