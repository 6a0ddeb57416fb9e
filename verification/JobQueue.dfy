/** The file-rename job queue: any number of producers, workers and readers,
    interleaved step by step.  A step is one file-system operation. */
module JobQueue {
  import opened Collections

  type JobId = string
  type WorkerId = nat

  datatype Worker =
    | Idle
    | Scanning(candidates: seq<JobId>)
    | Loaded(job: JobId, rest: seq<JobId>)   // spec parsed, rename not tried yet
    | Claimed(job: JobId)                    // renamed into running/
    | Rewriting(job: JobId)                  // running/ file opened and so empty, text not written yet
    | Working(job: JobId)                    // running/ record rewritten, job executing
    | Failing(job: JobId, silent: bool)      // something raised, perhaps with an empty message
    | Writing(job: JobId, ok: bool, retry: bool)  // done/ or failed/ file opened, text not written yet
    | Finishing(job: JobId)                  // result file written, running/ file still there

  datatype Status = IsPending | IsRunning | IsDone | IsFailed

  datatype File = File(status: Status, id: JobId)

  /** The four directories, plus: `torn` holds the files that were opened for writing
      and whose text is not complete; `issued` every id ever generated; `claims` the
      ids renamed into running/, in order. */
  datatype State = State(
    pending: set<JobId>, running: set<JobId>, done: set<JobId>, failed: set<JobId>,
    torn: set<File>, issued: set<JobId>, workers: map<WorkerId, Worker>, claims: seq<JobId>)

  /** Writing a text opens the file, which empties it, and then writes. */
  datatype Step =
    | Create(id: JobId)                               // enqueue opens pending/id for writing
    | Fill(id: JobId)                                 // enqueue writes the text
    | Scan(w: WorkerId, candidates: seq<JobId>)       // glob and sort: any list of ids
    | GiveUp(w: WorkerId)                             // candidates exhausted
    | Load(w: WorkerId)                               // read and parse the next candidate
    | Rename(w: WorkerId, refused: bool)              // os.replace(pending/id, running/id)
    | Truncate(w: WorkerId)                           // open running/id for writing
    | Rewrite(w: WorkerId)                            // running/id := record with status running
    | Raise(w: WorkerId, silent: bool)                // the job, or opening its result file, raises
    | Open(w: WorkerId)                               // open done/id or failed/id for writing
    | Write(w: WorkerId)                              // write the text of the result file
    | DiskError(w: WorkerId)                          // a write fails half way
    | Unlink(w: WorkerId, refused: bool)              // remove running/id
    | Crash(w: WorkerId)

  function WorkerOf(s: State, w: WorkerId): Worker {
    if w in s.workers then s.workers[w] else Idle
  }

  predicate Enabled(s: State, step: Step) {
    match step
    case Create(id) => id !in s.issued                // a fresh uuid
    case Fill(id) => File(IsPending, id) in s.torn
    case Scan(w, _) => WorkerOf(s, w).Idle?
    case GiveUp(w) => WorkerOf(s, w) == Scanning([])
    case Load(w) => WorkerOf(s, w).Scanning? && WorkerOf(s, w).candidates != []
    case Rename(w, _) => WorkerOf(s, w).Loaded?
    case Truncate(w) => WorkerOf(s, w).Claimed?
    case Rewrite(w) => WorkerOf(s, w).Rewriting?
    case Raise(w, _) => WorkerOf(s, w).Working?
    case Open(w) => WorkerOf(s, w).Working? || WorkerOf(s, w).Failing?
    case Write(w) => WorkerOf(s, w).Writing?
    case DiskError(w) => WorkerOf(s, w).Rewriting? || WorkerOf(s, w).Writing?
    case Unlink(w, _) => WorkerOf(s, w).Finishing?
    case Crash(w) => true
  }

  function With(s: State, w: WorkerId, p: Worker): State {
    s.(workers := s.workers[w := p])
  }

  /** finish_job: a result goes to done, an error to failed, and an error with an empty
      message counts as none. */
  predicate GoesToDone(p: Worker) { p.Working? || (p.Failing? && p.silent) }

  function ResultFile(p: Worker): File
    requires p.Writing?
  {
    File(if p.ok then IsDone else IsFailed, p.job)
  }

  function Apply(s: State, step: Step): State
    requires Enabled(s, step)
  {
    match step
    case Create(id) =>
      s.(pending := s.pending + {id}, torn := s.torn + {File(IsPending, id)}, issued := s.issued + {id})
    case Fill(id) => s.(torn := s.torn - {File(IsPending, id)})
    case Scan(w, candidates) => With(s, w, Scanning(candidates))
    case GiveUp(w) => With(s, w, Idle)
    case Load(w) =>
      var c, rest := WorkerOf(s, w).candidates[0], WorkerOf(s, w).candidates[1..];
      // a vanished or torn file is skipped
      With(s, w, if c in s.pending && File(IsPending, c) !in s.torn then Loaded(c, rest) else Scanning(rest))
    case Rename(w, refused) =>
      var c, rest := WorkerOf(s, w).job, WorkerOf(s, w).rest;
      // the rename is atomic and fails when the source is gone
      if c !in s.pending || refused then With(s, w, Scanning(rest))
      else With(s.(pending := s.pending - {c}, running := s.running + {c}, claims := s.claims + [c]), w, Claimed(c))
    case Truncate(w) =>
      var c := WorkerOf(s, w).job;
      With(s.(running := s.running + {c}, torn := s.torn + {File(IsRunning, c)}), w, Rewriting(c))
    case Rewrite(w) =>
      var c := WorkerOf(s, w).job;
      With(s.(torn := s.torn - {File(IsRunning, c)}), w, Working(c))
    case Raise(w, silent) => With(s, w, Failing(WorkerOf(s, w).job, silent))
    case Open(w) =>
      var c, ok := WorkerOf(s, w).job, GoesToDone(WorkerOf(s, w));
      var p := Writing(c, ok, WorkerOf(s, w).Failing?);
      With(if ok then s.(done := s.done + {c}, torn := s.torn + {ResultFile(p)})
           else s.(failed := s.failed + {c}, torn := s.torn + {ResultFile(p)}), w, p)
    case Write(w) =>
      var p := WorkerOf(s, w);
      With(s.(torn := s.torn - {ResultFile(p)}), w, Finishing(p.job))
    case DiskError(w) =>
      // an exception while claiming, or while recording an error, ends the worker
      var p := WorkerOf(s, w);
      With(s, w, if p.Writing? && !p.retry then Failing(p.job, false) else Idle)
    case Unlink(w, refused) =>
      var c := WorkerOf(s, w).job;
      With(if refused then s else s.(running := s.running - {c}), w, Idle)
    case Crash(w) => With(s, w, Idle)
  }

  const EMPTY := State({}, {}, {}, {}, {}, {}, map[], [])

  ghost predicate Init(s: State) {
    s == EMPTY
  }

  ghost predicate Next(s: State, t: State) {
    exists step :: Enabled(s, step) && t == Apply(s, step)
  }

  ghost predicate IsRun(run: seq<State>) {
    && |run| > 0 && Init(run[0])
    && forall i :: 0 <= i < |run| - 1 ==> Next(run[i], run[i + 1])
  }

  // --- The invariant -------------------------------------------------------

  predicate Owns(p: Worker, id: JobId) {
    !p.Idle? && !p.Scanning? && !p.Loaded? && p.job == id
  }

  ghost predicate NoDuplicates(q: seq<JobId>) {
    forall i, j :: 0 <= i < j < |q| ==> q[i] != q[j]
  }

  /** Where the files of a job can be. */
  ghost predicate FilesInv(s: State) {
    && s.pending <= s.issued
    && (forall f :: f in s.torn ==> if f.status.IsPending? then f.id in s.pending else f.id in s.claims)
    && (forall id :: id in s.claims ==> id in s.issued && id !in s.pending)
    && (forall id :: id in s.running || id in s.done || id in s.failed ==> id in s.claims)
    && (forall id :: id in s.issued ==> id in s.pending || id in s.running || id in s.done || id in s.failed)
  }

  /** What a worker knows of its job's files. */
  ghost predicate WorkerInv(s: State, p: Worker) {
    || p.Idle? || p.Scanning?
    || (p.Loaded? && p.job in s.issued && File(IsPending, p.job) !in s.torn)
    || (Owns(p, p.job) && p.job in s.running && (p.Rewriting? <==> File(IsRunning, p.job) in s.torn) &&
        (p.Writing? || p.Finishing? ==> p.job in s.done || p.job in s.failed))
  }

  ghost predicate WorkersInv(s: State) {
    forall w :: w in s.workers ==> WorkerInv(s, s.workers[w])
  }

  ghost predicate OneOwner(s: State) {
    forall w, v, id :: w in s.workers && v in s.workers && Owns(s.workers[w], id) && Owns(s.workers[v], id) ==> w == v
  }

  ghost predicate Inv(s: State) {
    NoDuplicates(s.claims) && FilesInv(s) && WorkersInv(s) && OneOwner(s)
  }

  lemma StepKeepsClaims(s: State, step: Step)
    requires Inv(s) && Enabled(s, step)
    ensures NoDuplicates(Apply(s, step).claims)
  {
  }

  lemma StepKeepsFiles(s: State, step: Step)
    requires Inv(s) && Enabled(s, step)
    ensures FilesInv(Apply(s, step))
  {
    var t := Apply(s, step);
    hide NoDuplicates;
    if t.claims != s.claims {
      assert forall id :: id in t.claims <==> id in s.claims || id == WorkerOf(s, step.w).job;
    }
  }

  lemma StepKeepsOneOwner(s: State, step: Step)
    requires Inv(s) && Enabled(s, step)
    ensures OneOwner(Apply(s, step))
  {
    hide NoDuplicates;
  }

  predicate Moves(step: Step, w: WorkerId) { !step.Create? && !step.Fill? && step.w == w }

  lemma OwnStepKeepsWorker(s: State, step: Step, w: WorkerId)
    requires Inv(s) && Enabled(s, step) && Moves(step, w)
    ensures WorkerInv(Apply(s, step), Apply(s, step).workers[w])
  {
    assert WorkerInv(s, WorkerOf(s, w));
    hide NoDuplicates, OneOwner;
  }

  /** A worker's job is no concern of the steps of others. */
  lemma OtherStepKeepsWorker(s: State, step: Step, w: WorkerId)
    requires Inv(s) && Enabled(s, step) && !Moves(step, w) && w in s.workers
    ensures WorkerInv(Apply(s, step), s.workers[w])
  {
    assert WorkerInv(s, s.workers[w]);
    if !step.Create? && !step.Fill? && step.w in s.workers {
      assert WorkerInv(s, s.workers[step.w]);
    }
    hide NoDuplicates, WorkersInv;
  }

  /** Every step of every worker and producer keeps the invariant. */
  lemma StepKeepsInv(s: State, step: Step)
    requires Inv(s) && Enabled(s, step)
    ensures Inv(Apply(s, step))
  {
    StepKeepsClaims(s, step);
    StepKeepsFiles(s, step);
    StepKeepsOneOwner(s, step);
    forall w | w in Apply(s, step).workers ensures WorkerInv(Apply(s, step), Apply(s, step).workers[w]) {
      if Moves(step, w) {
        OwnStepKeepsWorker(s, step, w);
      } else {
        OtherStepKeepsWorker(s, step, w);
        assert Apply(s, step).workers[w] == s.workers[w];
      }
    }
    hide NoDuplicates, FilesInv, WorkerInv, OneOwner, Apply;
  }

  lemma {:induction false} RunKeepsInv(run: seq<State>, i: nat)
    requires IsRun(run) && i < |run|
    ensures Inv(run[i])
  {
    if i > 0 {
      RunKeepsInv(run, i - 1);
      assert Next(run[i - 1], run[i]);
      var step :| Enabled(run[i - 1], step) && run[i] == Apply(run[i - 1], step);
      StepKeepsInv(run[i - 1], step);
    }
  }

  /** On every run, no job is ever claimed twice, and no two workers hold the
      same job at the same time. */
  lemma EachJobClaimedOnce(run: seq<State>, i: nat)
    requires IsRun(run) && i < |run|
    ensures NoDuplicates(run[i].claims)
    ensures forall w, v, id | w in run[i].workers && v in run[i].workers ::
              Owns(run[i].workers[w], id) && Owns(run[i].workers[v], id) ==> w == v
  {
    RunKeepsInv(run, i);
  }

  // --- What a reader sees --------------------------------------------------

  /** How a job's files may change from one state to any later one. */
  ghost predicate Progress(s: State, t: State, id: JobId) {
    && (id in s.issued ==> id in t.issued)
    && (id in s.issued && id !in s.pending ==> id !in t.pending)
    && (id in s.issued && id !in s.pending && id !in s.running ==> id !in t.running)
    && (id in s.done ==> id in t.done)
    && (id in s.failed ==> id in t.failed)
    && s.claims <= t.claims
  }

  lemma StepProgress(s: State, step: Step, id: JobId)
    requires Inv(s) && Enabled(s, step)
    ensures Progress(s, Apply(s, step), id)
  {
  }

  lemma {:induction false} RunProgress(run: seq<State>, i: nat, j: nat, id: JobId)
    requires IsRun(run) && i <= j < |run|
    ensures Progress(run[i], run[j], id)
    decreases j - i
  {
    if i < j {
      RunProgress(run, i, j - 1, id);
      RunKeepsInv(run, j - 1);
      assert Next(run[j - 1], run[j]);
      var step :| Enabled(run[j - 1], step) && run[j] == Apply(run[j - 1], step);
      StepProgress(run[j - 1], step, id);
    }
  }

  /** The four file probes of _find_job_path, at four moments of a run. */
  datatype Probe = Probe(t0: nat, t1: nat, t2: nat, t3: nat)

  ghost predicate ProbeIn(run: seq<State>, p: Probe) {
    p.t0 <= p.t1 <= p.t2 <= p.t3 < |run|
  }

  ghost function Find(run: seq<State>, p: Probe, id: JobId): Option<Status>
    requires ProbeIn(run, p)
  {
    if id in run[p.t0].pending then Some(IsPending)
    else if id in run[p.t1].running then Some(IsRunning)
    else if id in run[p.t2].done then Some(IsDone)
    else if id in run[p.t3].failed then Some(IsFailed)
    else None
  }

  function Rank(st: Status): nat {
    match st case IsPending => 0 case IsRunning => 1 case IsDone => 2 case IsFailed => 2
  }

  /** Probing the directories one at a time, in that order, never misses a job
      that was enqueued before the first probe, whatever happens in between; and
      it finds nothing for a job that is not enqueued by the last probe. */
  lemma ReaderNeverMisses(run: seq<State>, p: Probe, id: JobId)
    requires IsRun(run) && ProbeIn(run, p)
    ensures id in run[p.t0].issued ==> Find(run, p, id).Some?
    ensures id !in run[p.t3].issued ==> Find(run, p, id).None?
  {
    RunKeepsInv(run, p.t0);
    RunKeepsInv(run, p.t1);
    RunKeepsInv(run, p.t2);
    RunKeepsInv(run, p.t3);
    RunProgress(run, p.t0, p.t1, id);
    RunProgress(run, p.t1, p.t2, id);
    RunProgress(run, p.t2, p.t3, id);
  }

  /** What a probe reports says where the job cannot be any more. */
  lemma FoundFacts(run: seq<State>, p: Probe, id: JobId)
    requires IsRun(run) && ProbeIn(run, p) && id in run[p.t0].issued
    ensures Find(run, p, id).Some?
    ensures id in run[p.t3].issued
    ensures Rank(Find(run, p, id).value) >= 1 ==> id !in run[p.t3].pending
    ensures Rank(Find(run, p, id).value) >= 2 ==> id !in run[p.t3].running
  {
    ReaderNeverMisses(run, p, id);
    RunProgress(run, p.t0, p.t3, id);
    RunProgress(run, p.t0, p.t1, id);
    RunProgress(run, p.t1, p.t3, id);
    RunKeepsInv(run, p.t1);
  }

  /** What one probe found bounds what a later probe of the same enqueued job
      finds from below. */
  lemma StatusNeverGoesBack(run: seq<State>, p: Probe, q: Probe, id: JobId)
    requires IsRun(run) && ProbeIn(run, p) && ProbeIn(run, q) && p.t3 <= q.t0
    requires id in run[p.t0].issued
    ensures Find(run, p, id).Some? && Find(run, q, id).Some?
    ensures Rank(Find(run, p, id).value) <= Rank(Find(run, q, id).value)
  {
    FoundFacts(run, p, id);
    RunProgress(run, p.t3, q.t0, id);
    RunProgress(run, p.t3, q.t1, id);
    FoundFacts(run, q, id);
  }

  // --- Reading what was found ------------------------------------------------

  ghost predicate Present(s: State, f: File) {
    match f.status
    case IsPending => f.id in s.pending
    case IsRunning => f.id in s.running
    case IsDone => f.id in s.done
    case IsFailed => f.id in s.failed
  }

  /** load_job reads the path it found in a further step: the file is still there and
      its text is complete. */
  ghost predicate Readable(s: State, f: File) {
    Present(s, f) && f !in s.torn
  }

  /** The step opens the file for writing. */
  ghost predicate Opens(s: State, step: Step, f: File) {
    match step
    case Create(id) => f == File(IsPending, id)
    case Truncate(w) => WorkerOf(s, w).Claimed? && f == File(IsRunning, WorkerOf(s, w).job)
    case Open(w) => (WorkerOf(s, w).Working? || WorkerOf(s, w).Failing?) &&
                    f == File(if GoesToDone(WorkerOf(s, w)) then IsDone else IsFailed, WorkerOf(s, w).job)
    case _ => false
  }

  /** The step writes the whole text of the file. */
  ghost predicate Fills(s: State, step: Step, f: File) {
    match step
    case Fill(id) => f == File(IsPending, id)
    case Rewrite(w) => WorkerOf(s, w).Rewriting? && f == File(IsRunning, WorkerOf(s, w).job)
    case Write(w) => WorkerOf(s, w).Writing? && f == ResultFile(WorkerOf(s, w))
    case _ => false
  }

  ghost predicate OpenedAt(run: seq<State>, k: nat, f: File) {
    k + 1 < |run| && exists step ::
      Enabled(run[k], step) && run[k + 1] == Apply(run[k], step) && Opens(run[k], step, f)
  }

  ghost predicate FilledAt(run: seq<State>, k: nat, f: File) {
    k + 1 < |run| && exists step ::
      Enabled(run[k], step) && run[k + 1] == Apply(run[k], step) && Fills(run[k], step, f)
  }

  /** Every time the file was opened for writing before `t`, its text was written
      afterwards and before `t`. */
  ghost predicate Written(run: seq<State>, t: nat, f: File) {
    forall k: nat :: k < t && OpenedAt(run, k, f) ==> FilledBetween(run, k, t, f)
  }

  ghost predicate FilledBetween(run: seq<State>, k: nat, t: nat, f: File) {
    exists j: nat :: k < j < t && FilledAt(run, j, f)
  }

  lemma OpenTears(run: seq<State>, k: nat, f: File)
    requires OpenedAt(run, k, f)
    ensures f in run[k + 1].torn
  {
  }

  lemma FillMends(run: seq<State>, k: nat, f: File)
    requires FilledAt(run, k, f)
    ensures f !in run[k + 1].torn
  {
  }

  lemma OthersStay(run: seq<State>, k: nat, f: File)
    requires IsRun(run) && k + 1 < |run| && !OpenedAt(run, k, f) && !FilledAt(run, k, f)
    ensures f in run[k].torn <==> f in run[k + 1].torn
  {
    assert Next(run[k], run[k + 1]);
    var step :| Enabled(run[k], step) && run[k + 1] == Apply(run[k], step);
    assert !Opens(run[k], step, f) && !Fills(run[k], step, f);
  }

  /** A text is complete exactly when every opening was followed by a write. */
  lemma {:induction false} TornIff(run: seq<State>, t: nat, f: File)
    requires IsRun(run) && t < |run|
    ensures f !in run[t].torn <==> Written(run, t, f)
  {
    assert run[0] == EMPTY;
    hide OpenedAt, FilledAt, IsRun;
    if t > 0 {
      TornIff(run, t - 1, f);
      if OpenedAt(run, t - 1, f) {
        OpenTears(run, t - 1, f);
        assert !FilledBetween(run, t - 1, t, f);
      } else if FilledAt(run, t - 1, f) {
        FillMends(run, t - 1, f);
        forall k: nat | k < t && OpenedAt(run, k, f) ensures FilledBetween(run, k, t, f) {
        }
      } else {
        OthersStay(run, t - 1, f);
        WrittenStays(run, t, f);
      }
    }
  }

  lemma WrittenStays(run: seq<State>, t: nat, f: File)
    requires t > 0 && !OpenedAt(run, t - 1, f) && !FilledAt(run, t - 1, f)
    ensures Written(run, t - 1, f) <==> Written(run, t, f)
  {
    forall k: nat ensures FilledBetween(run, k, t - 1, f) <==> FilledBetween(run, k, t, f) {
      hide OpenedAt, FilledAt;
    }
    hide OpenedAt, FilledAt, FilledBetween;
  }

  /** Step `k` of the run renames the job into running/. */
  ghost predicate RenamedAt(run: seq<State>, k: nat, id: JobId) {
    k + 1 < |run| && exists w ::
      && WorkerOf(run[k], w).Loaded? && WorkerOf(run[k], w).job == id && id in run[k].pending
      && run[k + 1] == Apply(run[k], Rename(w, false))
  }

  /** Step `k` of the run removes the job from running/. */
  ghost predicate UnlinkedAt(run: seq<State>, k: nat, id: JobId) {
    k + 1 < |run| && exists w ::
      && WorkerOf(run[k], w).Finishing? && WorkerOf(run[k], w).job == id
      && run[k + 1] == Apply(run[k], Unlink(w, false))
  }

  lemma RenamedIsGone(run: seq<State>, k: nat, j: nat, id: JobId)
    requires IsRun(run) && k < j < |run| && RenamedAt(run, k, id)
    ensures id !in run[j].pending
  {
    RunKeepsInv(run, k);
    assert id in run[k + 1].issued && id !in run[k + 1].pending;
    hide Inv, RenamedAt, IsRun;
    RunProgress(run, k + 1, j, id);
  }

  lemma {:induction false} LeavesPending(run: seq<State>, i: nat, j: nat, id: JobId)
    requires IsRun(run) && i <= j < |run| && id in run[i].pending
    ensures id !in run[j].pending <==> exists k: nat :: i <= k < j && RenamedAt(run, k, id)
    decreases j - i
  {
    hide RenamedAt, IsRun;
    forall k: nat | i <= k < j && RenamedAt(run, k, id) ensures id !in run[j].pending {
      RenamedIsGone(run, k, j, id);
    }
    if i < j && id !in run[j].pending {
      if id !in run[j - 1].pending {
        LeavesPending(run, i, j - 1, id);
      } else {
        LastRename(run, j - 1, id);
      }
    }
  }

  lemma LastRename(run: seq<State>, k: nat, id: JobId)
    requires IsRun(run) && k + 1 < |run| && id in run[k].pending && id !in run[k + 1].pending
    ensures RenamedAt(run, k, id)
  {
    assert Next(run[k], run[k + 1]);
    var step :| Enabled(run[k], step) && run[k + 1] == Apply(run[k], step);
    assert step.Rename? && !step.refused;
  }

  lemma UnlinkedIsGone(run: seq<State>, k: nat, j: nat, id: JobId)
    requires IsRun(run) && k < j < |run| && UnlinkedAt(run, k, id) && id in run[k].issued && id !in run[k].pending
    ensures id !in run[j].running
  {
    assert id in run[k + 1].issued && id !in run[k + 1].pending && id !in run[k + 1].running;
    hide UnlinkedAt, IsRun;
    RunProgress(run, k + 1, j, id);
  }

  lemma RunningIsOut(run: seq<State>, i: nat, k: nat, id: JobId)
    requires IsRun(run) && i <= k < |run| && id in run[i].running
    ensures id in run[k].issued && id !in run[k].pending
  {
    RunKeepsInv(run, i);
    RunProgress(run, i, k, id);
    hide IsRun;
  }

  lemma {:induction false} LeavesRunning(run: seq<State>, i: nat, j: nat, id: JobId)
    requires IsRun(run) && i <= j < |run| && id in run[i].running
    ensures id !in run[j].running <==> exists k: nat :: i <= k < j && UnlinkedAt(run, k, id)
    decreases j - i
  {
    hide UnlinkedAt, IsRun;
    forall k: nat | i <= k < j && UnlinkedAt(run, k, id) ensures id !in run[j].running {
      RunningIsOut(run, i, k, id);
      UnlinkedIsGone(run, k, j, id);
    }
    if i < j && id !in run[j].running {
      if id !in run[j - 1].running {
        LeavesRunning(run, i, j - 1, id);
      } else {
        LastUnlink(run, j - 1, id);
      }
    }
  }

  lemma LastUnlink(run: seq<State>, k: nat, id: JobId)
    requires IsRun(run) && k + 1 < |run| && id in run[k].running && id !in run[k + 1].running
    ensures UnlinkedAt(run, k, id)
  {
    assert Next(run[k], run[k + 1]);
    var step :| Enabled(run[k], step) && run[k + 1] == Apply(run[k], step);
    assert step.Unlink? && !step.refused;
  }

  /** The moment of the probe that succeeded. */
  function FoundAt(p: Probe, st: Status): nat {
    match st case IsPending => p.t0 case IsRunning => p.t1 case IsDone => p.t2 case IsFailed => p.t3
  }

  /** What was found is not moved away in between. */
  ghost predicate Stays(run: seq<State>, i: nat, t: nat, f: File) {
    match f.status
    case IsPending => !exists k: nat :: i <= k < t && RenamedAt(run, k, f.id)
    case IsRunning => !exists k: nat :: i <= k < t && UnlinkedAt(run, k, f.id)
    case _ => true
  }

  /** The read of the file that was found succeeds exactly when no step moved or
      removed it since, and every step that opened it for writing was followed by one
      that wrote its text. */
  lemma LoadSucceedsIff(run: seq<State>, p: Probe, t: nat, id: JobId)
    requires IsRun(run) && ProbeIn(run, p) && Find(run, p, id).Some?
    requires FoundAt(p, Find(run, p, id).value) <= t < |run|
    ensures var st := Find(run, p, id).value;
      Readable(run[t], File(st, id)) <==> Stays(run, FoundAt(p, st), t, File(st, id)) && Written(run, t, File(st, id))
  {
    var st := Find(run, p, id).value;
    TornIff(run, t, File(st, id));
    hide Written, IsRun, RenamedAt, UnlinkedAt;
    match st
    case IsPending => LeavesPending(run, p.t0, t, id);
    case IsRunning => LeavesRunning(run, p.t1, t, id);
    case IsDone => RunProgress(run, p.t2, t, id);
    case IsFailed => RunProgress(run, p.t3, t, id);
  }

  // --- Where a job's result is ---------------------------------------------------

  /** Step `k` of the run is an exception of the job, or of writing its result, that has
      a message. */
  ghost predicate FailedAt(run: seq<State>, k: nat, id: JobId) {
    k + 1 < |run| && exists w ::
      && (WorkerOf(run[k], w).Working? || WorkerOf(run[k], w).Writing?) && WorkerOf(run[k], w).job == id
      && WorkerOf(run[k + 1], w) == Failing(id, false)
  }

  ghost predicate FailedBefore(run: seq<State>, i: nat, id: JobId) { exists k: nat :: k < i && FailedAt(run, k, id) }

  /** What a worker's stage says of the job's result. */
  ghost predicate StageInv(s: State, p: Worker, id: JobId, loud: bool) {
    match p
    case Failing(_, silent) => silent == !loud
    case Writing(_, ok, _) => ok == !loud && (if ok then id in s.done else id in s.failed)
    case Finishing(_) =>
      if loud then id in s.failed && File(IsFailed, id) !in s.torn
      else id in s.done && File(IsDone, id) !in s.torn
    case _ => !loud
  }

  ghost predicate ResultInv(s: State, id: JobId, loud: bool) {
    && (id in s.failed ==> loud) && (loud ==> id in s.claims)
    && (forall w :: w in s.workers && Owns(s.workers[w], id) ==> StageInv(s, s.workers[w], id, loud))
  }

  /** The worker at the job fails with a message in this step. */
  predicate Loud(s: State, step: Step, id: JobId) {
    match step
    case Raise(w, silent) => WorkerOf(s, w).Working? && WorkerOf(s, w).job == id && !silent
    case DiskError(w) => WorkerOf(s, w).Writing? && WorkerOf(s, w).job == id && !WorkerOf(s, w).retry
    case _ => false
  }

  lemma OwnStepKeepsStage(s: State, step: Step, w: WorkerId, id: JobId, loud: bool)
    requires Inv(s) && Enabled(s, step) && ResultInv(s, id, loud)
    requires Moves(step, w) && Owns(Apply(s, step).workers[w], id)
    ensures StageInv(Apply(s, step), Apply(s, step).workers[w], id, loud || Loud(s, step, id))
  {
    hide NoDuplicates;
    assert Owns(WorkerOf(s, w), id) || step.Rename?;
  }

  /** A step of a worker that is not at the job leaves the job's result files alone. */
  lemma ResultFilesKept(s: State, step: Step, id: JobId)
    requires Enabled(s, step) && (step.Create? || step.Fill? || !Owns(WorkerOf(s, step.w), id))
    ensures var t := Apply(s, step);
      && !Loud(s, step, id) && (id in t.done <==> id in s.done) && (id in t.failed <==> id in s.failed)
      && (File(IsDone, id) in t.torn <==> File(IsDone, id) in s.torn)
      && (File(IsFailed, id) in t.torn <==> File(IsFailed, id) in s.torn)
  {
  }

  lemma OtherStepKeepsStage(s: State, step: Step, w: WorkerId, id: JobId, loud: bool)
    requires OneOwner(s) && Enabled(s, step) && ResultInv(s, id, loud)
    requires !Moves(step, w) && w in s.workers && Owns(s.workers[w], id)
    ensures StageInv(Apply(s, step), s.workers[w], id, loud || Loud(s, step, id))
  {
    assert StageInv(s, s.workers[w], id, loud);
    ResultFilesKept(s, step, id);
    hide Apply, Loud, OneOwner, ResultInv;
  }

  lemma StepKeepsResult(s: State, step: Step, id: JobId, loud: bool)
    requires Inv(s) && Enabled(s, step) && ResultInv(s, id, loud)
    ensures ResultInv(Apply(s, step), id, loud || Loud(s, step, id))
  {
    var t, now := Apply(s, step), loud || Loud(s, step, id);
    forall w | w in t.workers && Owns(t.workers[w], id) ensures StageInv(t, t.workers[w], id, now) {
      if Moves(step, w) {
        OwnStepKeepsStage(s, step, w, id, loud);
      } else {
        assert t.workers[w] == s.workers[w];
        OtherStepKeepsStage(s, step, w, id, loud);
      }
    }
    hide NoDuplicates, StageInv;
    FailedOnlyWhenLoud(s, step, id, loud);
  }

  lemma FailedOnlyWhenLoud(s: State, step: Step, id: JobId, loud: bool)
    requires Inv(s) && Enabled(s, step) && ResultInv(s, id, loud)
    ensures id in Apply(s, step).failed ==> loud
    ensures loud || Loud(s, step, id) ==> id in Apply(s, step).claims
  {
    hide NoDuplicates;
  }

  lemma LoudIsFailedAt(run: seq<State>, k: nat, step: Step, id: JobId)
    requires k + 1 < |run| && Enabled(run[k], step) && run[k + 1] == Apply(run[k], step)
    ensures FailedAt(run, k, id) <==> Loud(run[k], step, id)
  {
    if Loud(run[k], step, id) {
      assert WorkerOf(run[k + 1], step.w) == Failing(id, false);
    }
  }

  lemma FailedBeforeSnoc(run: seq<State>, i: nat, id: JobId)
    ensures FailedBefore(run, i + 1, id) <==> FailedBefore(run, i, id) || FailedAt(run, i, id)
  {
    hide FailedAt;
  }

  lemma {:induction false} RunKeepsResult(run: seq<State>, i: nat, id: JobId)
    requires IsRun(run) && i < |run|
    ensures ResultInv(run[i], id, FailedBefore(run, i, id))
  {
    if i > 0 {
      RunKeepsInv(run, i - 1);
      assert Next(run[i - 1], run[i]);
      hide Apply, Inv, Enabled, IsRun, ResultInv, FailedAt, FailedBefore, Loud;
      RunKeepsResult(run, i - 1, id);
      var step :| Enabled(run[i - 1], step) && run[i] == Apply(run[i - 1], step);
      StepKeepsResult(run[i - 1], step, id, FailedBefore(run, i - 1, id));
      LoudIsFailedAt(run, i - 1, step, id);
      FailedBeforeSnoc(run, i - 1, id);
    }
  }

  /** A job is in failed/ only if it, or writing its result, raised something with a
      message before; and when its worker is done with the result file, its record is
      complete in failed/ if so and otherwise in done/, and then it is not in failed/. */
  lemma ResultTellsTheEnd(run: seq<State>, i: nat, id: JobId)
    requires IsRun(run) && i < |run|
    ensures id in run[i].failed ==> FailedBefore(run, i, id)
    ensures forall w :: w in run[i].workers && run[i].workers[w] == Finishing(id) ==>
      if FailedBefore(run, i, id) then Readable(run[i], File(IsFailed, id))
      else Readable(run[i], File(IsDone, id)) && id !in run[i].failed
  {
    RunKeepsResult(run, i, id);
    hide FailedBefore, IsRun;
  }

  /** A worker can always go on: it never waits for another. */
  lemma WorkerNeverStuck(s: State, w: WorkerId) returns (step: Step)
    ensures Enabled(s, step) && Moves(step, w) && !step.Crash? && !step.DiskError? && !step.Raise?
    ensures step.GiveUp? ==> WorkerOf(s, w).candidates == []
  {
    match WorkerOf(s, w)
    case Idle => step := Scan(w, []);
    case Scanning(candidates) => step := if candidates == [] then GiveUp(w) else Load(w);
    case Loaded(_, _) => step := Rename(w, false);
    case Claimed(_) => step := Truncate(w);
    case Rewriting(_) => step := Rewrite(w);
    case Working(_) => step := Open(w);
    case Failing(_, _) => step := Open(w);
    case Writing(_, _, _) => step := Write(w);
    case Finishing(_) => step := Unlink(w, false);
  }

  lemma Taken(s: State, step: Step) returns (t: State)
    requires Enabled(s, step)
    ensures t == Apply(s, step) && Next(s, t)
  {
    t := Apply(s, step);
  }

  /** A worker that claimed a job can finish it: the record is rewritten, the result goes
      complete to done/, the running file goes, and the worker is free again. */
  lemma ClaimedCanFinish(s: State, w: WorkerId) returns (run: seq<State>)
    requires WorkerOf(s, w).Claimed?
    ensures |run| == 6 && run[0] == s && forall i :: 0 <= i < |run| - 1 ==> Next(run[i], run[i + 1])
    ensures var id := WorkerOf(s, w).job;
      && Readable(run[2], File(IsRunning, id)) && Readable(run[5], File(IsDone, id)) && id !in run[5].running
      && run[5].failed == s.failed && WorkerOf(run[5], w).Idle?
  {
    hide Next;
    var s1 := Taken(s, Truncate(w));
    var s2 := Taken(s1, Rewrite(w));
    var s3 := Taken(s2, Open(w));
    var s4 := Taken(s3, Write(w));
    var s5 := Taken(s4, Unlink(w, false));
    run := [s, s1, s2, s3, s4, s5];
  }

  // --- Claimed jobs without a worker ------------------------------------------

  /** Claimed, and no worker is at it any more. */
  ghost predicate Abandoned(s: State, id: JobId) {
    id in s.claims && forall w :: w in s.workers ==> !Owns(s.workers[w], id)
  }

  ghost predicate SameFile(s: State, t: State, f: File) {
    (Present(s, f) <==> Present(t, f)) && (f in s.torn <==> f in t.torn)
  }

  ghost predicate SameFiles(s: State, t: State, id: JobId) {
    forall st :: SameFile(s, t, File(st, id))
  }

  lemma StepLeavesFile(s: State, step: Step, f: File)
    requires Inv(s) && Enabled(s, step) && Abandoned(s, f.id)
    ensures SameFile(s, Apply(s, step), f)
  {
    hide NoDuplicates;
  }

  lemma StepLeavesAbandoned(s: State, step: Step, id: JobId)
    requires Inv(s) && Enabled(s, step) && Abandoned(s, id)
    ensures Abandoned(Apply(s, step), id) && SameFiles(s, Apply(s, step), id)
  {
    forall st ensures SameFile(s, Apply(s, step), File(st, id)) {
      StepLeavesFile(s, step, File(st, id));
    }
    hide NoDuplicates, SameFile;
  }

  /** Nothing ever touches the files of an abandoned job again: its status and whether
      it can be read are fixed for good. */
  lemma {:induction false} AbandonedForever(run: seq<State>, i: nat, j: nat, id: JobId)
    requires IsRun(run) && i <= j < |run| && Abandoned(run[i], id)
    ensures Abandoned(run[j], id) && SameFiles(run[i], run[j], id)
    decreases j - i
  {
    if i < j {
      AbandonedForever(run, i, j - 1, id);
      RunKeepsInv(run, j - 1);
      assert Next(run[j - 1], run[j]);
      var step :| Enabled(run[j - 1], step) && run[j] == Apply(run[j - 1], step);
      StepLeavesAbandoned(run[j - 1], step, id);
    }
  }

  /** As long as a worker is at a claimed job, its running file lacks its text exactly
      while that worker rewrites it. */
  lemma RunningIsTornIff(run: seq<State>, t: nat, id: JobId)
    requires IsRun(run) && t < |run| && id in run[t].claims && !Abandoned(run[t], id)
    ensures id in run[t].running
    ensures File(IsRunning, id) in run[t].torn <==>
            exists w :: w in run[t].workers && run[t].workers[w] == Rewriting(id)
  {
    RunKeepsInv(run, t);
    hide IsRun;
    var w :| w in run[t].workers && Owns(run[t].workers[w], id);
  }

  /** Job "a" is enqueued and claimed by worker 0. */
  lemma ClaimRun() returns (run: seq<State>)
    ensures IsRun(run) && |run| == 6 && run[5].workers == map[0 := Claimed("a")]
    ensures run[5].claims == ["a"] && run[5].issued == {"a"} && run[5].pending == {}
    ensures Find(run, Probe(4, 4, 4, 4), "a") == Some(IsPending)
    ensures Find(run, Probe(5, 5, 5, 5), "a") == Some(IsRunning)
  {
    var s1 := Apply(EMPTY, Create("a"));
    var s2 := Apply(s1, Fill("a"));
    var s3 := Apply(s2, Scan(0, ["a"]));
    var s4 := Apply(s3, Load(0));
    var s5 := Apply(s4, Rename(0, false));
    assert Next(EMPTY, s1) && Next(s1, s2) && Next(s2, s3) && Next(s3, s4) && Next(s4, s5);
    run := [EMPTY, s1, s2, s3, s4, s5];
  }

  /** A job found in pending/ and claimed before it is read. */
  lemma LoadCanMissAnEnqueuedJob() returns (run: seq<State>, p: Probe)
    ensures IsRun(run) && ProbeIn(run, p) && p.t3 + 1 < |run|
    ensures Find(run, p, "a") == Some(IsPending)
    ensures "a" in run[p.t3 + 1].issued && !Readable(run[p.t3 + 1], File(IsPending, "a"))
  {
    run := ClaimRun();
    p := Probe(4, 4, 4, 4);
  }

  /** A job found in running/ is read while its record is rewritten; the write fails, the
      worker ends, and the job can never be read again, though its file stays. */
  lemma TornForGood() returns (run: seq<State>, p: Probe)
    ensures IsRun(run) && ProbeIn(run, p) && p.t3 + 2 == |run| - 1
    ensures Find(run, p, "a") == Some(IsRunning)
    ensures !Readable(run[p.t3 + 1], File(IsRunning, "a")) && Present(run[p.t3 + 1], File(IsRunning, "a"))
    ensures Abandoned(run[p.t3 + 2], "a")
    ensures forall more, j: nat :: IsRun(run + more) && p.t3 + 2 <= j < |run + more| ==>
              Present((run + more)[j], File(IsRunning, "a")) && !Readable((run + more)[j], File(IsRunning, "a"))
  {
    var base := ClaimRun();
    var s6 := Apply(base[5], Truncate(0));
    var s7 := Apply(s6, DiskError(0));
    assert Next(base[5], s6) && Next(s6, s7);
    run, p := base + [s6, s7], Probe(5, 5, 5, 5);
    assert s7.workers == map[0 := Idle];
    assert "a" in s7.claims && Abandoned(s7, "a");
    forall more, j: nat | IsRun(run + more) && 7 <= j < |run + more|
      ensures Present((run + more)[j], File(IsRunning, "a")) && !Readable((run + more)[j], File(IsRunning, "a"))
    {
      assert (run + more)[7] == s7;
      AbandonedForever(run + more, 7, j, "a");
      assert SameFile(s7, (run + more)[j], File(IsRunning, "a"));
    }
  }
}
