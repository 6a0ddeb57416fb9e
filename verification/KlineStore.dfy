/** The kline library: bars keyed by open time, normalised frames, and merges by
    any number of processes under a lock file. */
module KlineStore {
  import opened Collections

  datatype Bar = Bar(openTime: int, columns: seq<real>)
  type Frame = seq<Bar>

  /** The last row of each open time. */
  function ToMap(f: Frame): map<int, Bar> {
    if f == [] then map[] else map[f[0].openTime := f[0]] + ToMap(f[1..])
  }

  ghost predicate StrictlySorted(f: Frame) {
    f != [] ==> StrictlySorted(f[1..]) && forall t :: t in ToMap(f[1..]) ==> f[0].openTime < t
  }

  lemma ToMapCons(b: Bar, f: Frame)
    ensures ToMap([b] + f) == map[b.openTime := b] + ToMap(f)
    ensures StrictlySorted([b] + f) <==> StrictlySorted(f) && forall t :: t in ToMap(f) ==> b.openTime < t
  {
    assert ([b] + f)[1..] == f;
  }

  lemma {:induction false} ToMapConcat(a: Frame, b: Frame)
    ensures ToMap(a + b) == ToMap(a) + ToMap(b)
  {
    if a == [] {
      assert a + b == b;
    } else {
      ToMapConcat(a[1..], b);
      assert a + b == [a[0]] + (a[1..] + b);
      ToMapCons(a[0], a[1..] + b);
      OverrideAssociates(map[a[0].openTime := a[0]], ToMap(a[1..]), ToMap(b));
    }
  }

  lemma OverrideAssociates<K, V>(a: map<K, V>, b: map<K, V>, c: map<K, V>)
    ensures a + (b + c) == a + b + c
  {
  }

  lemma {:induction false} ToMapHasTimes(f: Frame, i: nat)
    requires i < |f|
    ensures f[i].openTime in ToMap(f)
  {
    if i > 0 { ToMapHasTimes(f[1..], i - 1); }
  }

  /** A strictly sorted frame increases in open time from row to row, and its map
      is the row at that open time. */
  lemma {:induction false} SortedRows(f: Frame, i: nat, j: nat)
    requires StrictlySorted(f) && i < j < |f|
    ensures f[i].openTime < f[j].openTime
  {
    if i == 0 {
      ToMapHasTimes(f[1..], j - 1);
    } else {
      SortedRows(f[1..], i - 1, j - 1);
    }
  }

  // --- _normalize_df -------------------------------------------------------

  /** drop_duplicates(subset=["open_time"], keep="last") */
  function DropDuplicates(f: Frame): Frame {
    if f == [] then []
    else if exists b :: b in f[1..] && b.openTime == f[0].openTime then DropDuplicates(f[1..])
    else [f[0]] + DropDuplicates(f[1..])
  }

  function Insert(b: Bar, sorted: Frame): Frame {
    if sorted == [] || b.openTime <= sorted[0].openTime then [b] + sorted
    else [sorted[0]] + Insert(b, sorted[1..])
  }

  /** sort_values("open_time") */
  function Sort(f: Frame): Frame {
    if f == [] then [] else Insert(f[0], Sort(f[1..]))
  }

  function Normalize(f: Frame): Frame {
    Sort(DropDuplicates(f))
  }

  ghost predicate DistinctTimes(f: Frame) {
    f != [] ==> f[0].openTime !in ToMap(f[1..]) && DistinctTimes(f[1..])
  }

  lemma {:induction false} TimesAreRows(f: Frame, t: int)
    ensures t in ToMap(f) <==> exists b :: b in f && b.openTime == t
  {
    if f != [] {
      TimesAreRows(f[1..], t);
      assert forall b :: b in f <==> b == f[0] || b in f[1..];
    }
  }

  lemma {:induction false} DropDuplicatesKeepsMap(f: Frame)
    ensures ToMap(DropDuplicates(f)) == ToMap(f) && DistinctTimes(DropDuplicates(f))
  {
    if f != [] {
      var b, rest := f[0], f[1..];
      DropDuplicatesKeepsMap(rest);
      TimesAreRows(rest, b.openTime);
      ToMapCons(b, DropDuplicates(rest));
      assert ([b] + DropDuplicates(rest))[1..] == DropDuplicates(rest);
      assert ToMap(f) == map[b.openTime := b] + ToMap(rest);
    }
  }

  lemma {:induction false} InsertKeepsMap(b: Bar, s: Frame)
    requires StrictlySorted(s) && b.openTime !in ToMap(s)
    ensures ToMap(Insert(b, s)) == map[b.openTime := b] + ToMap(s)
    ensures StrictlySorted(Insert(b, s))
  {
    if s != [] && b.openTime > s[0].openTime {
      InsertKeepsMap(b, s[1..]);
      ToMapCons(s[0], Insert(b, s[1..]));
    } else {
      ToMapCons(b, s);
    }
  }

  lemma {:induction false} SortKeepsMap(f: Frame)
    requires DistinctTimes(f)
    ensures ToMap(Sort(f)) == ToMap(f) && StrictlySorted(Sort(f))
  {
    if f != [] {
      SortKeepsMap(f[1..]);
      InsertKeepsMap(f[0], Sort(f[1..]));
    }
  }

  /** Normalising sorts strictly by open time and keeps exactly the last row of
      every open time. */
  lemma NormalizeMeaning(f: Frame)
    ensures StrictlySorted(Normalize(f)) && ToMap(Normalize(f)) == ToMap(f)
  {
    DropDuplicatesKeepsMap(f);
    SortKeepsMap(DropDuplicates(f));
  }

  lemma EmptyFrame(f: Frame)
    ensures f == [] <==> ToMap(f) == map[]
  {
    assert f != [] ==> f[0].openTime in ToMap(f);
  }

  /** A strictly sorted frame is determined by its map. */
  lemma {:induction false} SortedIsCanonical(a: Frame, b: Frame)
    requires StrictlySorted(a) && StrictlySorted(b) && ToMap(a) == ToMap(b)
    ensures a == b
  {
    EmptyFrame(a);
    EmptyFrame(b);
    if a != [] {
      assert a[0].openTime in ToMap(b);
      assert b[0].openTime in ToMap(a);
      assert a[0].openTime == b[0].openTime;
      assert ToMap(a)[a[0].openTime] == a[0] && ToMap(b)[b[0].openTime] == b[0];
      assert ToMap(a[1..]) == ToMap(a) - {a[0].openTime};
      assert ToMap(b[1..]) == ToMap(b) - {b[0].openTime};
      SortedIsCanonical(a[1..], b[1..]);
      assert a == [a[0]] + a[1..] && b == [b[0]] + b[1..];
    }
  }

  // --- One merge -----------------------------------------------------------

  /** The frame merge_into_library writes: library rows, then the new rows. */
  function MergeFrames(library: Option<Frame>, df: Frame): Frame {
    var frames := (if library.Some? then library.value else [])
                  + (if df != [] then Normalize(df) else []);
    Normalize(frames)
  }

  function Rows(library: Option<Frame>): map<int, Bar> {
    if library.Some? then ToMap(library.value) else map[]
  }

  /** A merge overrides the library with the new bars, last writer winning. */
  lemma MergeOverrides(library: Option<Frame>, df: Frame)
    ensures StrictlySorted(MergeFrames(library, df))
    ensures ToMap(MergeFrames(library, df)) == Rows(library) + ToMap(df)
  {
    var base := if library.Some? then library.value else [];
    var new_ := if df != [] then Normalize(df) else [];
    NormalizeMeaning(df);
    NormalizeMeaning(base + new_);
    ToMapConcat(base, new_);
  }

  /** Merging the same bars again leaves the file unchanged, row for row. */
  lemma MergeIdempotent(library: Option<Frame>, df: Frame)
    ensures MergeFrames(Some(MergeFrames(library, df)), df) == MergeFrames(library, df)
  {
    var once := MergeFrames(library, df);
    MergeOverrides(library, df);
    MergeOverrides(Some(once), df);
    assert Rows(library) + ToMap(df) + ToMap(df) == Rows(library) + ToMap(df);
    SortedIsCanonical(MergeFrames(Some(once), df), once);
  }

  /** Merges of frames with no open time in common commute. */
  lemma DisjointMergesCommute(library: Option<Frame>, a: Frame, b: Frame)
    requires ToMap(a).Keys !! ToMap(b).Keys
    ensures MergeFrames(Some(MergeFrames(library, a)), b) == MergeFrames(Some(MergeFrames(library, b)), a)
  {
    hide ToMap, MergeFrames;
    var ab, ba := MergeFrames(Some(MergeFrames(library, a)), b), MergeFrames(Some(MergeFrames(library, b)), a);
    MergeOverrides(library, a);
    MergeOverrides(library, b);
    MergeOverrides(Some(MergeFrames(library, a)), b);
    MergeOverrides(Some(MergeFrames(library, b)), a);
    assert Rows(library) + ToMap(a) + ToMap(b) == Rows(library) + ToMap(b) + ToMap(a);
    SortedIsCanonical(ab, ba);
  }

  // --- Any number of processes ---------------------------------------------

  type Pid = nat

  datatype Process =
    | Away
    | Waiting(df: Frame)                                     // polling for the lock file
    | Locked(df: Frame, ticket: nat)                         // lock file created
    | Adopted(df: Frame, ticket: nat)                        // legacy file renamed if needed
    | Loaded(df: Frame, ticket: nat, base: Option<Frame>)    // library file read
    | Written(df: Frame, ticket: nat)                        // temporary file written
    | Leaving                                                // replaced or failed, lock not removed yet
    | Dead

  datatype Merge = Merge(ticket: nat, df: Frame)

  /** Files of one symbol and interval; `ticket` counts lock acquisitions and
      `completed` lists the merges whose replace() happened, in order. */
  datatype State = State(
    lockFile: bool, library: Option<Frame>, legacy: Option<Frame>, tmp: Option<Frame>,
    processes: map<Pid, Process>, ticket: nat, completed: seq<Merge>)

  datatype Step =
    | Request(p: Pid, df: Frame)
    | TryLock(p: Pid, pidWritten: bool)  // O_CREAT | O_EXCL; then the pid is written, or that raises
    | Timeout(p: Pid)
    | AdoptLegacy(p: Pid)
    | Read(p: Pid)
    | WriteTmp(p: Pid)
    | Replace(p: Pid)
    | Fail(p: Pid)               // an exception inside the lock
    | Unlock(p: Pid, removed: bool)      // the lock file is removed, or that fails and is logged
    | Crash(p: Pid)

  function ProcessOf(s: State, p: Pid): Process {
    if p in s.processes then s.processes[p] else Away
  }

  predicate Holding(p: Process) {
    p.Locked? || p.Adopted? || p.Loaded? || p.Written? || p.Leaving?
  }

  predicate Enabled(s: State, step: Step) {
    match step
    case Request(p, _) => ProcessOf(s, p).Away?
    case TryLock(p, _) => ProcessOf(s, p).Waiting?
    case Timeout(p) => ProcessOf(s, p).Waiting?
    case AdoptLegacy(p) => ProcessOf(s, p).Locked?
    case Read(p) => ProcessOf(s, p).Adopted?
    case WriteTmp(p) => ProcessOf(s, p).Loaded?
    case Replace(p) => ProcessOf(s, p).Written? && s.tmp.Some?
    case Fail(p) => Holding(ProcessOf(s, p)) && !ProcessOf(s, p).Leaving?
    case Unlock(p, _) => ProcessOf(s, p).Leaving?
    case Crash(p) => !ProcessOf(s, p).Away?
  }

  function With(s: State, p: Pid, q: Process): State {
    s.(processes := s.processes[p := q])
  }

  function Apply(s: State, step: Step): State
    requires Enabled(s, step)
  {
    var q := ProcessOf(s, step.p);
    match step
    case Request(p, df) => With(s, p, Waiting(df))
    case TryLock(p, pidWritten) =>
      if s.lockFile then s
      else if !pidWritten then With(s.(lockFile := true), p, Away)
      else With(s.(lockFile := true, ticket := s.ticket + 1), p, Locked(q.df, s.ticket))
    case Timeout(p) => With(s, p, Away)
    case AdoptLegacy(p) =>
      var t := if s.library.None? && s.legacy.Some? then s.(library := s.legacy, legacy := None) else s;
      With(t, p, Adopted(q.df, q.ticket))
    case Read(p) => With(s, p, Loaded(q.df, q.ticket, s.library))
    case WriteTmp(p) => With(s.(tmp := Some(MergeFrames(q.base, q.df))), p, Written(q.df, q.ticket))
    case Replace(p) =>
      With(s.(library := s.tmp, tmp := None, completed := s.completed + [Merge(q.ticket, q.df)]), p, Leaving)
    case Fail(p) => With(s, p, Leaving)
    case Unlock(p, removed) => With(if removed then s.(lockFile := false) else s, p, Away)
    case Crash(p) => With(s, p, Dead)
  }

  ghost predicate Init(s: State) {
    !s.lockFile && s.tmp.None? && s.processes == map[] && s.ticket == 0 && s.completed == []
  }

  ghost predicate Next(s: State, t: State) {
    exists step :: Enabled(s, step) && t == Apply(s, step)
  }

  ghost predicate IsRun(run: seq<State>) {
    && |run| > 0 && Init(run[0])
    && forall i :: 0 <= i < |run| - 1 ==> Next(run[i], run[i + 1])
  }

  /** The bars a reader would find, counting a legacy file not adopted yet. */
  function Effective(s: State): Option<Frame> {
    if s.library.Some? then s.library else s.legacy
  }

  /** What running the merges one after another would leave. */
  ghost function Serial(start: Option<Frame>, merges: seq<Merge>): Option<Frame> {
    if merges == [] then start
    else Some(MergeFrames(Serial(start, merges[..|merges| - 1]), merges[|merges| - 1].df))
  }

  ghost predicate LockInv(s: State) {
    && (forall p :: p in s.processes && Holding(s.processes[p]) ==> s.lockFile)
    && (forall p, q | p in s.processes && q in s.processes ::
          Holding(s.processes[p]) && Holding(s.processes[q]) ==> p == q)
  }

  ghost predicate TicketInv(s: State) {
    && (forall i, j :: 0 <= i < j < |s.completed| ==> s.completed[i].ticket < s.completed[j].ticket)
    && (forall i :: 0 <= i < |s.completed| ==> s.completed[i].ticket < s.ticket)
    && (forall p :: p in s.processes && Holding(s.processes[p]) && !s.processes[p].Leaving? ==>
          && s.processes[p].ticket < s.ticket
          && forall i :: 0 <= i < |s.completed| ==> s.completed[i].ticket < s.processes[p].ticket)
  }

  ghost predicate LibraryInv(start: Option<Frame>, s: State) {
    && Effective(s) == Serial(start, s.completed)
    && (forall p :: p in s.processes ==>
          match s.processes[p]
          case Adopted(_, _) => Effective(s) == s.library
          case Loaded(_, _, base) => s.library == base == Effective(s)
          case Written(df, _) => s.tmp == Some(MergeFrames(Effective(s), df))
          case _ => true)
  }

  lemma StepKeepsLockInv(s: State, step: Step)
    requires LockInv(s) && Enabled(s, step)
    ensures LockInv(Apply(s, step))
  {
    hide MergeFrames;
  }

  lemma StepKeepsTicketInv(s: State, step: Step)
    requires LockInv(s) && TicketInv(s) && Enabled(s, step)
    ensures TicketInv(Apply(s, step))
  {
    hide MergeFrames;
  }

  lemma SerialSnoc(start: Option<Frame>, merges: seq<Merge>, m: Merge)
    ensures Serial(start, merges + [m]) == Some(MergeFrames(Serial(start, merges), m.df))
  {
    assert (merges + [m])[..|merges|] == merges;
  }

  lemma ReplaceKeepsLibraryInv(start: Option<Frame>, s: State, step: Step)
    requires LockInv(s) && LibraryInv(start, s) && Enabled(s, step) && step.Replace?
    ensures LibraryInv(start, Apply(s, step))
  {
    hide MergeFrames, Serial;
    var q := ProcessOf(s, step.p);
    SerialSnoc(start, s.completed, Merge(q.ticket, q.df));
    assert Holding(q);
    assert forall p :: p in s.processes && p != step.p ==> !Holding(s.processes[p]);
  }

  lemma StepKeepsLibraryInv(start: Option<Frame>, s: State, step: Step)
    requires LockInv(s) && LibraryInv(start, s) && Enabled(s, step)
    ensures LibraryInv(start, Apply(s, step))
  {
    hide MergeFrames, Serial;
    if step.Replace? {
      ReplaceKeepsLibraryInv(start, s, step);
    }
  }

  lemma {:induction false} RunKeepsInv(run: seq<State>, i: nat)
    requires IsRun(run) && i < |run|
    ensures LockInv(run[i]) && TicketInv(run[i]) && LibraryInv(Effective(run[0]), run[i])
  {
    if i > 0 {
      hide LockInv, TicketInv, LibraryInv, Apply;
      RunKeepsInv(run, i - 1);
      assert Next(run[i - 1], run[i]);
      var step :| Enabled(run[i - 1], step) && run[i] == Apply(run[i - 1], step);
      StepKeepsLockInv(run[i - 1], step);
      StepKeepsTicketInv(run[i - 1], step);
      StepKeepsLibraryInv(Effective(run[0]), run[i - 1], step);
    }
  }

  /** On every run at most one process is between creating and removing the lock
      file. */
  lemma MutualExclusion(run: seq<State>, i: nat, p: Pid, q: Pid)
    requires IsRun(run) && i < |run|
    requires Holding(ProcessOf(run[i], p)) && Holding(ProcessOf(run[i], q))
    ensures p == q && run[i].lockFile
  {
    RunKeepsInv(run, i);
  }

  // --- The lock is given back ---------------------------------------------------

  ghost predicate Held(s: State) { exists p :: p in s.processes && Holding(s.processes[p]) }

  /** The step leaves the lock file behind with no process to remove it: a holder
      crashes, the lock file cannot be removed, or its creator cannot write its pid. */
  predicate Orphans(s: State, step: Step) {
    match step
    case Crash(p) => Holding(ProcessOf(s, p))
    case Unlock(_, removed) => !removed
    case TryLock(_, pidWritten) => !pidWritten && !s.lockFile
    case _ => false
  }

  ghost predicate OrphanedAt(run: seq<State>, k: nat) {
    k + 1 < |run| && exists step :: Enabled(run[k], step) && run[k + 1] == Apply(run[k], step) && Orphans(run[k], step)
  }

  /** Is the lock in order: gone, or held? */
  ghost predicate InOrder(s: State) { s.lockFile ==> Held(s) }

  lemma StepKeepsOrder(s: State, step: Step)
    requires Enabled(s, step) && !Orphans(s, step) && InOrder(s)
    ensures InOrder(Apply(s, step))
  {
    hide MergeFrames;
    var t := Apply(s, step);
    if s.lockFile {
      var p :| p in s.processes && Holding(s.processes[p]);
      assert p in t.processes;
      assert t.lockFile ==> Holding(t.processes[p]);
    } else if t.lockFile {
      assert Holding(t.processes[step.p]);
    }
  }

  /** A lock file that nobody holds was orphaned by an earlier step. */
  lemma {:induction false} LockIsGivenBack(run: seq<State>, i: nat)
    requires IsRun(run) && i < |run| && !InOrder(run[i])
    ensures exists k: nat :: k < i && OrphanedAt(run, k)
  {
    assert i > 0;
    assert Next(run[i - 1], run[i]);
    var step :| Enabled(run[i - 1], step) && run[i] == Apply(run[i - 1], step);
    if Orphans(run[i - 1], step) {
      assert OrphanedAt(run, i - 1);
    } else {
      hide InOrder, IsRun, OrphanedAt;
      if InOrder(run[i - 1]) {
        StepKeepsOrder(run[i - 1], step);
        assert false;
      }
      LockIsGivenBack(run, i - 1);
    }
  }

  /** As long as no step orphaned it, the lock file is there exactly while some process
      holds the lock. */
  lemma LockFileIffHeld(run: seq<State>, i: nat)
    requires IsRun(run) && i < |run| && forall k: nat :: k < i ==> !OrphanedAt(run, k)
    ensures run[i].lockFile <==> Held(run[i])
  {
    RunKeepsInv(run, i);
    hide OrphanedAt, IsRun;
    if !InOrder(run[i]) {
      LockIsGivenBack(run, i);
      assert false;
    }
  }

  /** A process that waits gets the lock if and only if no process holds it, again as
      long as it was not orphaned; then it can always go on to complete its merge. */
  lemma WaiterGetsFreeLock(run: seq<State>, i: nat, p: Pid)
    requires IsRun(run) && i < |run| && forall k: nat :: k < i ==> !OrphanedAt(run, k)
    requires ProcessOf(run[i], p).Waiting?
    ensures ProcessOf(Apply(run[i], TryLock(p, true)), p).Locked? <==> !Held(run[i])
  {
    LockFileIffHeld(run, i);
    hide Held, OrphanedAt, IsRun;
  }

  /** A process that got the lock can complete its merge and free the lock. */
  lemma HolderFinishes(s: State, p: Pid) returns (run: seq<State>)
    requires LockInv(s) && ProcessOf(s, p).Locked?
    ensures |run| == 6 && run[0] == s && forall i :: 0 <= i < |run| - 1 ==> Next(run[i], run[i + 1])
    ensures run[5].completed == s.completed + [Merge(ProcessOf(s, p).ticket, ProcessOf(s, p).df)]
    ensures run[5].library == Some(MergeFrames(Effective(s), ProcessOf(s, p).df))
    ensures !run[5].lockFile && ProcessOf(run[5], p).Away?
  {
    hide MergeFrames, Next, LockInv;
    var s1 := Taken(s, AdoptLegacy(p));
    var s2 := Taken(s1, Read(p));
    var s3 := Taken(s2, WriteTmp(p));
    var s4 := Taken(s3, Replace(p));
    var s5 := Taken(s4, Unlock(p, true));
    run := [s, s1, s2, s3, s4, s5];
  }

  lemma Taken(s: State, step: Step) returns (t: State)
    requires Enabled(s, step)
    ensures t == Apply(s, step) && Next(s, t)
  {
    t := Apply(s, step);
  }

  lemma StepLeavesOrphan(s: State, step: Step)
    requires Enabled(s, step) && !InOrder(s)
    ensures !InOrder(Apply(s, step)) && Apply(s, step).completed == s.completed
  {
    hide MergeFrames;
    var t := Apply(s, step);
    assert !Holding(ProcessOf(s, step.p));
    forall p | p in t.processes ensures !Holding(t.processes[p]) {
      assert !Holding(ProcessOf(s, p));
    }
  }

  /** An orphaned lock file stays for good, and no merge ever completes again. */
  lemma {:induction false} OrphanedForGood(run: seq<State>, i: nat, j: nat)
    requires IsRun(run) && i <= j < |run| && !InOrder(run[i])
    ensures !InOrder(run[j]) && run[j].completed == run[i].completed
    decreases j - i
  {
    if i < j {
      OrphanedForGood(run, i, j - 1);
      assert Next(run[j - 1], run[j]);
      var step :| Enabled(run[j - 1], step) && run[j] == Apply(run[j - 1], step);
      StepLeavesOrphan(run[j - 1], step);
    }
  }

  /** Every interleaving is equivalent to running the completed merges one after
      another in the order in which they took the lock. */
  lemma MergesAreSerializable(run: seq<State>, i: nat)
    requires IsRun(run) && i < |run|
    ensures Effective(run[i]) == Serial(Effective(run[0]), run[i].completed)
    ensures forall j, k :: 0 <= j < k < |run[i].completed| ==>
              run[i].completed[j].ticket < run[i].completed[k].ticket
  {
    RunKeepsInv(run, i);
  }

  ghost function Override(start: map<int, Bar>, merges: seq<Merge>): map<int, Bar> {
    if merges == [] then start
    else Override(start, merges[..|merges| - 1]) + ToMap(merges[|merges| - 1].df)
  }

  lemma {:induction false} SerialOverrides(start: Option<Frame>, merges: seq<Merge>)
    ensures Rows(Serial(start, merges)) == Override(Rows(start), merges)
    ensures merges != [] ==> StrictlySorted(Serial(start, merges).value)
  {
    if merges != [] {
      SerialOverrides(start, merges[..|merges| - 1]);
      MergeOverrides(Serial(start, merges[..|merges| - 1]), merges[|merges| - 1].df);
    }
  }

  /** After any interleaving in which a merge has completed, the library is
      strictly sorted and holds the override of the initial file by all completed
      merges in lock order. */
  lemma LibraryAfterAnyInterleaving(run: seq<State>, i: nat)
    requires IsRun(run) && i < |run| && run[i].completed != []
    ensures run[i].library.Some? && StrictlySorted(run[i].library.value)
    ensures ToMap(run[i].library.value) == Override(Rows(Effective(run[0])), run[i].completed)
  {
    RunKeepsInv(run, i);
    SerialOverrides(Effective(run[0]), run[i].completed);
    LibraryExists(run, i);
  }

  lemma {:induction false} LibraryExists(run: seq<State>, i: nat)
    requires IsRun(run) && i < |run| && run[i].completed != []
    ensures run[i].library.Some?
  {
    assert i > 0;
    assert Next(run[i - 1], run[i]);
    var step :| Enabled(run[i - 1], step) && run[i] == Apply(run[i - 1], step);
    if !step.Replace? {
      LibraryExists(run, i - 1);
    }
  }

  /** No bar is lost: once a merge has completed, each of its open times is in the
      library, with the row of the last completed merge that had it. */
  lemma {:induction false} NoBarLost(start: map<int, Bar>, merges: seq<Merge>, k: nat, t: int)
    requires k < |merges| && t in ToMap(merges[k].df)
    requires forall j :: k < j < |merges| ==> t !in ToMap(merges[j].df)
    ensures t in Override(start, merges) && Override(start, merges)[t] == ToMap(merges[k].df)[t]
  {
    if k < |merges| - 1 {
      NoBarLost(start, merges[..|merges| - 1], k, t);
    }
  }
}
