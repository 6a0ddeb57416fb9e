/** The submit throttle (token bucket) and the consecutive-reject breaker that
    guard every child order.  Time and tokens are reals. */
module SubmitGuard {
  import opened Arithmetic
  import opened Collections

  // --- Token bucket: the two locked sections as functions ------------------

  datatype Bucket = Bucket(rate: real, capacity: real, tokens: real, last: real)

  datatype Admission = Unlimited | Granted | MustSleep(wait: real)

  /** Tokens refilled at `rate` in `dt` seconds. */
  function Flow(rate: real, dt: real): real { dt * rate }

  lemma FlowSplit(rate: real, from: real, mid: real, until: real)
    ensures Flow(rate, until - from) == Flow(rate, until - mid) + Flow(rate, mid - from)
    ensures rate >= 0.0 && from <= mid ==> Flow(rate, mid - from) >= 0.0
  {
  }

  /** Seconds until `missing` tokens have been refilled. */
  function SleepFor(rate: real, missing: real): real
    requires rate > 0.0
  {
    missing / rate
  }

  lemma SleepRefills(rate: real, missing: real)
    requires rate > 0.0 && missing >= 0.0
    ensures Flow(rate, SleepFor(rate, missing)) == missing && SleepFor(rate, missing) >= 0.0
  {
  }

  function Refill(b: Bucket, now: real): Bucket {
    b.(tokens := Min(b.capacity, b.tokens + Flow(b.rate, Max(0.0, now - b.last))), last := now)
  }

  /** The first locked section: refill, then take a token or say how long to sleep. */
  function Enter(b: Bucket, now: real): (Bucket, Admission) {
    if b.rate <= 0.0 then (b, Unlimited)
    else
      var r := Refill(b, now);
      if r.tokens >= 1.0 then (r.(tokens := r.tokens - 1.0), Granted)
      else (r, MustSleep(SleepFor(r.rate, 1.0 - r.tokens)))
  }

  /** The second locked section, after the sleep: no refill, take what is there. */
  function Wake(b: Bucket): Bucket {
    b.(tokens := Max(0.0, b.tokens - 1.0))
  }

  ghost predicate Bounded(b: Bucket) {
    b.rate > 0.0 && 0.0 <= b.tokens <= b.capacity
  }

  class TokenBucket {
    const rate: real
    const capacity: real
    var tokens: real
    var last: real

    ghost function State(): Bucket
      reads this
    {
      Bucket(rate, capacity, tokens, last)
    }

    constructor (ratePerSec: real, requested: Option<real>, now: real)
      ensures rate == Max(0.0, ratePerSec)
      ensures requested.None? ==> capacity == Max(1.0, Max(0.0, ratePerSec))
      ensures requested.Some? ==> capacity == requested.value
      ensures State() == Bucket(rate, capacity, capacity, now)
    {
      var r := Max(0.0, ratePerSec);
      var c := match requested case None => Max(1.0, r) case Some(x) => x;
      rate, capacity, tokens, last := r, c, c, now;
    }

    /** Runs up to the sleep. */
    method AcquireEnter(now: real) returns (a: Admission)
      modifies this
      ensures (State(), a) == Enter(old(State()), now)
    {
      if rate <= 0.0 {
        return Unlimited;
      }
      var elapsed := Max(0.0, now - last);
      tokens := Min(capacity, tokens + elapsed * rate);
      last := now;
      assert State() == Refill(old(State()), now);
      if tokens >= 1.0 {
        tokens := tokens - 1.0;
        return Granted;
      }
      var wait := (1.0 - tokens) / rate;
      return MustSleep(wait);
    }

    /** Runs after the sleep. */
    method AcquireWake()
      modifies this
      ensures State() == Wake(old(State()))
    {
      tokens := Max(0.0, tokens - 1.0);
    }
  }

  // --- Any interleaving of callers -----------------------------------------

  /** One locked section executed by some caller. */
  datatype Section = EnterAt(now: real) | WakeUp

  function Apply(b: Bucket, s: Section): Bucket {
    match s
    case EnterAt(now) => Enter(b, now).0
    case WakeUp => Wake(b)
  }

  function Run(b: Bucket, trace: seq<Section>): Bucket
    decreases |trace|
  {
    if trace == [] then b else Run(Apply(b, trace[0]), trace[1..])
  }

  /** Number of callers in the trace that were admitted without sleeping. */
  function DirectGrants(b: Bucket, trace: seq<Section>): nat
    decreases |trace|
  {
    if trace == [] then 0
    else (if trace[0].EnterAt? && Enter(b, trace[0].now).1.Granted? then 1 else 0)
         + DirectGrants(Apply(b, trace[0]), trace[1..])
  }

  /** Callers enter in clock order, between `from` and `until`. */
  ghost predicate ClockOrdered(trace: seq<Section>, from: real, until: real) {
    if trace == [] then from <= until
    else if trace[0].EnterAt? then
      from <= trace[0].now <= until && ClockOrdered(trace[1..], trace[0].now, until)
    else ClockOrdered(trace[1..], from, until)
  }

  lemma RefillBounds(b: Bucket, now: real)
    requires Bounded(b)
    ensures 0.0 <= Refill(b, now).tokens <= b.capacity
    ensures b.last <= now ==> Refill(b, now).tokens <= b.tokens + Flow(b.rate, now - b.last)
  {
    FlowSplit(b.rate, 0.0, Max(0.0, now - b.last), now);
  }

  /** The bucket never goes negative and never overfills, whatever the callers do. */
  lemma {:induction false} TokensStayInRange(b: Bucket, trace: seq<Section>)
    requires Bounded(b)
    ensures Bounded(Run(b, trace)) && Run(b, trace).capacity == b.capacity
    decreases |trace|
  {
    if trace != [] {
      if trace[0].EnterAt? { RefillBounds(b, trace[0].now); }
      TokensStayInRange(Apply(b, trace[0]), trace[1..]);
    }
  }

  /** Direct grants are paid for by tokens held or refilled. */
  lemma {:induction false} DirectGrantsPaid(b: Bucket, trace: seq<Section>, until: real)
    requires Bounded(b) && ClockOrdered(trace, b.last, until)
    ensures DirectGrants(b, trace) as real <= b.tokens + Flow(b.rate, until - b.last)
    decreases |trace|
  {
    hide Flow, SleepFor;
    if trace == [] {
      FlowSplit(b.rate, b.last, until, until);
      FlowSplit(b.rate, until, until, until);
    } else {
      if trace[0].EnterAt? {
        RefillBounds(b, trace[0].now);
        FlowSplit(b.rate, b.last, trace[0].now, until);
      }
      DirectGrantsPaid(Apply(b, trace[0]), trace[1..], until);
    }
  }

  /** Under every interleaving, callers admitted without sleeping in a window of
      length T number at most capacity + rate * T. */
  lemma {:induction false} DirectGrantBound(b: Bucket, trace: seq<Section>, from: real, until: real)
    requires Bounded(b) && b.last <= from && ClockOrdered(trace, from, until)
    ensures DirectGrants(b, trace) as real <= b.capacity + Flow(b.rate, until - from)
    decreases |trace|
  {
    hide Flow, SleepFor;
    if trace == [] {
      FlowSplit(b.rate, from, until, until);
      FlowSplit(b.rate, until, until, until);
    } else if trace[0].WakeUp? {
      DirectGrantBound(Apply(b, trace[0]), trace[1..], from, until);
    } else {
      var now := trace[0].now;
      RefillBounds(b, now);
      DirectGrantsPaid(Apply(b, trace[0]), trace[1..], until);
      FlowSplit(b.rate, from, now, until);
    }
  }

  // --- One caller at a time ------------------------------------------------

  /** A whole acquire() call: it starts at `start`; if it has to sleep, the sleep
      lasts at least the computed wait and `extra` longer. */
  datatype Call = Call(start: real, extra: real)

  function AfterCall(b: Bucket, c: Call): Bucket {
    var (e, a) := Enter(b, c.start);
    if a.MustSleep? then Wake(e) else e
  }

  function GrantTime(b: Bucket, c: Call): real {
    var a := Enter(b, c.start).1;
    if a.MustSleep? then c.start + a.wait + c.extra else c.start
  }

  /** Each call starts after the previous one returned; all return by `until`. */
  ghost predicate OneAtATime(b: Bucket, calls: seq<Call>, from: real, until: real)
    decreases |calls|
  {
    if calls == [] then from <= until
    else
      var c := calls[0];
      from <= c.start && 0.0 <= c.extra && GrantTime(b, c) <= until
      && OneAtATime(AfterCall(b, c), calls[1..], GrantTime(b, c), until)
  }

  lemma CallEffect(b: Bucket, c: Call)
    requires Bounded(b) && b.last <= c.start && 0.0 <= c.extra
    ensures Bounded(AfterCall(b, c)) && AfterCall(b, c).last == c.start <= GrantTime(b, c)
    ensures AfterCall(b, c).rate == b.rate && AfterCall(b, c).capacity == b.capacity
    ensures 1.0 + AfterCall(b, c).tokens
              <= Refill(b, c.start).tokens + Flow(b.rate, GrantTime(b, c) - c.start)
  {
    hide Flow, SleepFor;
    RefillBounds(b, c.start);
    var g := GrantTime(b, c);
    var (e, a) := Enter(b, c.start);
    if a.MustSleep? {
      SleepRefills(b.rate, 1.0 - e.tokens);
      var awake := c.start + a.wait;
      FlowSplit(b.rate, c.start, awake, g);
      FlowSplit(b.rate, awake, g, g);
      assert awake - c.start == SleepFor(b.rate, 1.0 - e.tokens);
    } else {
      FlowSplit(b.rate, c.start, c.start, c.start);
    }
  }

  lemma EndsInOrder(b: Bucket, calls: seq<Call>, from: real, until: real)
    requires Bounded(b) && b.last <= from && OneAtATime(b, calls, from, until)
    ensures from <= until
  {
    if calls != [] { CallEffect(b, calls[0]); }
  }

  /** Sequential grants are paid for twice over: by refilled tokens, and by time
      slept, which is refilled again afterwards. */
  lemma {:induction false} SequentialGrantsPaid(b: Bucket, calls: seq<Call>, from: real, until: real)
    requires Bounded(b) && b.last <= from && OneAtATime(b, calls, from, until)
    ensures |calls| as real <= b.tokens + Flow(b.rate, until - b.last) + Flow(b.rate, until - from)
    decreases |calls|
  {
    EndsInOrder(b, calls, from, until);
    hide Flow, SleepFor, Enter;
    FlowSplit(b.rate, b.last, from, until);
    FlowSplit(b.rate, from, until, until);
    if calls != [] {
      var c := calls[0];
      var after, g := AfterCall(b, c), GrantTime(b, c);
      CallEffect(b, c);
      RefillBounds(b, c.start);
      SequentialGrantsPaid(after, calls[1..], g, until);
      FlowSplit(b.rate, b.last, c.start, until);
      FlowSplit(b.rate, from, g, until);
      FlowSplit(b.rate, from, c.start, g);
    }
  }

  /** Calls made one at a time inside a window of length T number at most
      capacity + 2 * rate * T. */
  lemma SequentialGrantBound(b: Bucket, calls: seq<Call>, from: real, until: real)
    requires Bounded(b) && b.last <= from && OneAtATime(b, calls, from, until)
    ensures |calls| as real <= b.capacity + 2.0 * Flow(b.rate, until - from)
  {
    EndsInOrder(b, calls, from, until);
    hide Flow, SleepFor, Enter;
    FlowSplit(b.rate, from, until, until);
    if calls != [] {
      var c := calls[0];
      var after, g := AfterCall(b, c), GrantTime(b, c);
      CallEffect(b, c);
      RefillBounds(b, c.start);
      SequentialGrantsPaid(after, calls[1..], g, until);
      FlowSplit(b.rate, from, c.start, until);
      FlowSplit(b.rate, from, g, until);
      FlowSplit(b.rate, from, c.start, g);
    }
  }

  /** A window of grant times may open while a call is asleep.  The grant that
      ends that sleep costs one more than the bound above. */
  lemma GrantWindowBound(b: Bucket, calls: seq<Call>, from: real, until: real)
    requires Bounded(b) && calls != [] && b.last <= calls[0].start && calls[0].extra >= 0.0
    requires from <= GrantTime(b, calls[0]) <= until
    requires OneAtATime(AfterCall(b, calls[0]), calls[1..], GrantTime(b, calls[0]), until)
    ensures |calls| as real <= 1.0 + b.capacity + 2.0 * Flow(b.rate, until - from)
  {
    var g, after := GrantTime(b, calls[0]), AfterCall(b, calls[0]);
    CallEffect(b, calls[0]);
    hide Flow, SleepFor, Enter;
    SequentialGrantBound(after, calls[1..], g, until);
    FlowSplit(b.rate, from, g, until);
  }

  /** The factor two is reached: because the sleeping path does not move the
      refill clock, every second call is refilled for the time the call before
      it slept, and 2n calls return within n / rate, for every n. */
  lemma {:induction false} ThrottleRunsAtTwiceTheRate(b: Bucket, n: nat) returns (calls: seq<Call>)
    requires Bounded(b) && b.tokens == 0.0 && b.capacity >= 1.0
    ensures |calls| == 2 * n
    ensures OneAtATime(b, calls, b.last, b.last + n as real / b.rate)
    decreases n
  {
    hide Flow, SleepFor;
    if n == 0 {
      return [];
    }
    var gap := SleepFor(b.rate, 1.0);
    var first, second := Call(b.last, 0.0), Call(b.last + gap, 0.0);
    SleepThenDirect(b, first, second);
    var next := AfterCall(b, second);
    var rest := ThrottleRunsAtTwiceTheRate(next, n - 1);
    Deadlines(n, b.rate);
    calls := [first, second] + rest;
    assert calls[1..] == [second] + rest && calls[1..][1..] == rest;
  }

  lemma SleepThenDirect(b: Bucket, first: Call, second: Call)
    requires Bounded(b) && b.tokens == 0.0 && b.capacity >= 1.0
    requires first == Call(b.last, 0.0) && second == Call(b.last + SleepFor(b.rate, 1.0), 0.0)
    ensures AfterCall(b, first) == b && GrantTime(b, first) == second.start
    ensures AfterCall(b, second) == b.(last := second.start) && GrantTime(b, second) == second.start
    ensures b.last <= second.start
  {
    SleepRefills(b.rate, 1.0);
    FlowSplit(b.rate, b.last, b.last, b.last);
    hide Flow, SleepFor;
    assert Refill(b, b.last) == b;
  }

  lemma Deadlines(n: nat, rate: real)
    requires n > 0 && rate > 0.0
    ensures SleepFor(rate, 1.0) + (n - 1) as real / rate == n as real / rate
    ensures (n - 1) as real / rate >= 0.0
  {
    assert SleepFor(rate, 1.0) == 1.0 / rate;
  }

  /** The extra one is needed: whatever the rate and the capacity, the grant that ends a
      sleep and the next call's direct grant can fall on the same instant. */
  lemma TwoGrantsInOneInstant(b: Bucket)
    requires Bounded(b) && b.tokens == 0.0 && b.capacity >= 1.0
    ensures var first, second := Call(b.last, 0.0), Call(b.last + SleepFor(b.rate, 1.0), 0.0);
      AfterCall(b, first) == b && GrantTime(b, first) == second.start == GrantTime(AfterCall(b, first), second)
  {
    SleepThenDirect(b, Call(b.last, 0.0), Call(b.last + SleepFor(b.rate, 1.0), 0.0));
    hide SleepFor, AfterCall, GrantTime;
  }

  // --- Several callers at a time -------------------------------------------

  /** A caller asleep: since when, and what it found in the bucket. */
  datatype Nap = Nap(since: real, found: real)

  type Naps = map<nat, Nap>

  datatype Event = Enters(c: nat, now: real) | Wakes(c: nat, now: real)

  /** A caller enters when it is not asleep, and wakes no earlier than it was told to. */
  predicate Allowed(b: Bucket, naps: Naps, e: Event, from: real)
    requires b.rate > 0.0
  {
    from <= e.now &&
    match e
    case Enters(c, now) => c !in naps
    case Wakes(c, now) => c in naps && naps[c].since + SleepFor(b.rate, 1.0 - naps[c].found) <= now
  }

  /** A sleeper wakes no earlier than the missing part of its token has flowed in. */
  lemma WakesWhenRefilled(b: Bucket, naps: Naps, c: nat, now: real, from: real)
    requires b.rate > 0.0 && c in naps
    ensures Allowed(b, naps, Wakes(c, now), from) <==>
      from <= now && naps[c].found + Times(now - naps[c].since, b.rate) >= 1.0
  {
    var missing := 1.0 - naps[c].found;
    RatioTimes(missing, b.rate);
    TimesOrder(SleepFor(b.rate, missing), now - naps[c].since, b.rate);
  }

  function Moved(b: Bucket, naps: Naps, e: Event): (Bucket, Naps) {
    match e
    case Enters(c, now) =>
      var (n, a) := Enter(b, now);
      (n, if a.MustSleep? then naps[c := Nap(now, n.tokens)] else naps)
    case Wakes(c, _) => (Wake(b), naps - {c})
  }

  predicate Grants(b: Bucket, e: Event, c: nat) {
    e.c == c && (e.Wakes? || Enter(b, e.now).1.Granted?)
  }

  /** The events happen in time order between `from` and `until`. */
  ghost predicate Timed(b: Bucket, naps: Naps, events: seq<Event>, from: real, until: real)
    requires b.rate > 0.0
    decreases |events|
  {
    if events == [] then from <= until
    else
      && Allowed(b, naps, events[0], from)
      && Timed(Moved(b, naps, events[0]).0, Moved(b, naps, events[0]).1, events[1..], events[0].now, until)
  }

  ghost function GrantsOf(b: Bucket, naps: Naps, events: seq<Event>, c: nat): nat
    decreases |events|
  {
    if events == [] then 0
    else (if Grants(b, events[0], c) then 1 else 0)
         + GrantsOf(Moved(b, naps, events[0]).0, Moved(b, naps, events[0]).1, events[1..], c)
  }

  /** The grants of the callers below `m` together. */
  ghost function GrantsBelow(b: Bucket, naps: Naps, events: seq<Event>, m: nat): nat {
    if m == 0 then 0 else GrantsBelow(b, naps, events, m - 1) + GrantsOf(b, naps, events, m - 1)
  }

  /** What a caller's later grants are paid for with: while it is awake, tokens held or
      refilled and time it may sleep; while it is asleep, what it found and the time
      since then, twice. */
  ghost function Budget(b: Bucket, naps: Naps, c: nat, from: real, until: real): real {
    if c in naps then naps[c].found + 2.0 * Flow(b.rate, until - naps[c].since)
    else b.tokens + Flow(b.rate, until - b.last) + Flow(b.rate, until - from)
  }

  /** What the others do while a caller sleeps only takes tokens away. */
  predicate NapFits(b: Bucket, naps: Naps, c: nat) {
    c in naps ==>
      && 0.0 <= naps[c].found < 1.0 && naps[c].since <= b.last
      && b.tokens <= naps[c].found + Flow(b.rate, b.last - naps[c].since)
  }

  lemma EndsInTime(b: Bucket, naps: Naps, events: seq<Event>, from: real, until: real)
    requires b.rate > 0.0 && Timed(b, naps, events, from, until)
    ensures from <= until
    decreases |events|
  {
    if events != [] {
      EndsInTime(Moved(b, naps, events[0]).0, Moved(b, naps, events[0]).1, events[1..], events[0].now, until);
    }
  }

  /** One event keeps the caller's account: its budget covers the grant, if it got one,
      and the budget that is left. */
  lemma EventPaid(b: Bucket, naps: Naps, e: Event, c: nat, from: real, until: real)
    requires Bounded(b) && b.last <= from && NapFits(b, naps, c)
    requires Allowed(b, naps, e, from) && e.now <= until
    ensures var (b', naps') := Moved(b, naps, e);
      && Bounded(b') && b'.rate == b.rate && b'.last <= e.now && NapFits(b', naps', c)
      && (if Grants(b, e, c) then 1.0 else 0.0) + Budget(b', naps', c, e.now, until) <= Budget(b, naps, c, from, until)
  {
    hide SleepFor;
    FlowSplit(b.rate, from, e.now, until);
    if e.Enters? {
      EnterPaid(b, naps, e, c, from, until);
    } else {
      WakePaid(b, naps, e, c, from, until);
    }
  }

  lemma EnterPaid(b: Bucket, naps: Naps, e: Event, c: nat, from: real, until: real)
    requires Bounded(b) && b.last <= from && NapFits(b, naps, c) && e.Enters?
    requires Allowed(b, naps, e, from) && e.now <= until
    ensures var (b', naps') := Moved(b, naps, e);
      && Bounded(b') && b'.rate == b.rate && b'.last <= e.now && NapFits(b', naps', c)
      && (if Grants(b, e, c) then 1.0 else 0.0) + Budget(b', naps', c, e.now, until) <= Budget(b, naps, c, from, until)
  {
    hide SleepFor, Flow;
    RefillBounds(b, e.now);
    FlowSplit(b.rate, from, e.now, until);
    FlowSplit(b.rate, b.last, e.now, until);
    FlowSplit(b.rate, e.now, e.now, e.now);
    if c in naps {
      FlowSplit(b.rate, naps[c].since, b.last, e.now);
    }
  }

  lemma WakePaid(b: Bucket, naps: Naps, e: Event, c: nat, from: real, until: real)
    requires Bounded(b) && b.last <= from && NapFits(b, naps, c) && e.Wakes?
    requires Allowed(b, naps, e, from) && e.now <= until
    ensures var (b', naps') := Moved(b, naps, e);
      && Bounded(b') && b'.rate == b.rate && b'.last <= e.now && NapFits(b', naps', c)
      && (if Grants(b, e, c) then 1.0 else 0.0) + Budget(b', naps', c, e.now, until) <= Budget(b, naps, c, from, until)
  {
    FlowSplit(b.rate, from, e.now, until);
    if c == e.c {
      var nap := naps[c];
      SleepRefills(b.rate, 1.0 - nap.found);
      var due := nap.since + SleepFor(b.rate, 1.0 - nap.found);
      assert due - nap.since == SleepFor(b.rate, 1.0 - nap.found);
      FlowSplit(b.rate, nap.since, due, until);
      FlowSplit(b.rate, due, e.now, until);
      FlowSplit(b.rate, nap.since, b.last, until);
    }
    hide SleepFor, Flow;
  }

  lemma {:induction false} CallerPaid(b: Bucket, naps: Naps, events: seq<Event>, c: nat, from: real, until: real)
    requires Bounded(b) && b.last <= from && NapFits(b, naps, c) && Timed(b, naps, events, from, until)
    ensures GrantsOf(b, naps, events, c) as real <= Budget(b, naps, c, from, until)
    decreases |events|
  {
    EndsInTime(b, naps, events, from, until);
    if events == [] {
      BudgetNotNegative(b, naps, c, from, until);
    } else {
      hide Bounded, NapFits, Allowed, Budget, Grants;
      var (b', naps') := Moved(b, naps, events[0]);
      EndsInTime(b', naps', events[1..], events[0].now, until);
      EventPaid(b, naps, events[0], c, from, until);
      hide Moved;
      CallerPaid(b', naps', events[1..], c, events[0].now, until);
    }
  }

  lemma BudgetNotNegative(b: Bucket, naps: Naps, c: nat, from: real, until: real)
    requires Bounded(b) && b.last <= from <= until && NapFits(b, naps, c)
    ensures Budget(b, naps, c, from, until) >= 0.0
  {
    hide Flow;
    FlowSplit(b.rate, b.last, until, until);
    FlowSplit(b.rate, from, until, until);
    FlowSplit(b.rate, until, until, until);
    FlowPositive(b.rate, until - b.last);
    FlowPositive(b.rate, until - from);
    if c in naps {
      FlowPositive(b.rate, until - naps[c].since);
    }
  }

  lemma FlowPositive(rate: real, dt: real)
    requires rate > 0.0 && dt >= 0.0
    ensures Flow(rate, dt) >= 0.0
  {
  }

  /** Whatever the other callers do, one caller gets at most capacity + 2 * rate * T
      grants inside a window of length T that starts with nobody asleep. */
  lemma CallerBound(b: Bucket, events: seq<Event>, c: nat, from: real, until: real)
    requires Bounded(b) && b.last <= from && Timed(b, map[], events, from, until)
    ensures GrantsOf(b, map[], events, c) as real <= b.capacity + 2.0 * Flow(b.rate, until - from)
  {
    EndsInTime(b, map[], events, from, until);
    FlowPositive(b.rate, until - from);
    if events != [] {
      var e := events[0];
      var r := Refill(b, e.now);
      var (b', naps') := Moved(b, map[], e);
      EndsInTime(b', naps', events[1..], e.now, until);
      RefillBounds(b, e.now);
      RefillTwice(b, e.now);
      EventPaid(r, map[], e, c, e.now, until);
      CallerPaid(b', naps', events[1..], c, e.now, until);
      FlowSplit(b.rate, from, e.now, until);
      hide Flow, SleepFor;
    }
  }

  /** Refilling again at the same instant changes nothing. */
  lemma RefillTwice(b: Bucket, now: real)
    requires Bounded(b) && b.last <= now
    ensures Refill(Refill(b, now), now) == Refill(b, now) && Enter(Refill(b, now), now) == Enter(b, now)
  {
    FlowSplit(b.rate, now, now, now);
    hide Flow;
  }

  /** So `m` callers together get at most m times that. */
  lemma {:induction false} ConcurrentGrantBound(b: Bucket, events: seq<Event>, m: nat, from: real, until: real)
    requires Bounded(b) && b.last <= from && Timed(b, map[], events, from, until)
    ensures GrantsBelow(b, map[], events, m) as real
         <= Times(m as real, b.capacity + 2.0 * Flow(b.rate, until - from))
  {
    hide Flow, Timed, GrantsOf;
    var each := b.capacity + 2.0 * Flow(b.rate, until - from);
    if m == 0 {
      TimesNegates(each, each);
    } else {
      ConcurrentGrantBound(b, events, m - 1, from, until);
      CallerBound(b, events, m - 1, from, until);
      TimesAdds(each, (m - 1) as real, 1.0);
      TimesNegates(each, each);
      assert (m - 1) as real + 1.0 == m as real;
    }
  }

  function Arrivals(k: nat, n: nat, now: real): seq<Event>
    decreases n - k
  {
    if k >= n then [] else [Enters(k, now)] + Arrivals(k + 1, n, now)
  }

  function Departures(k: nat, n: nat, now: real): seq<Event>
    decreases n - k
  {
    if k >= n then [] else [Wakes(k, now)] + Departures(k + 1, n, now)
  }

  predicate Among(c: nat, k: nat, n: nat) { k <= c < n }

  function Asleep(k: nat, n: nat, since: real): Naps { map c: nat | k <= c < n && Among(c, k, n) :: Nap(since, 0.0) }

  /** There is no bound for any number of callers: with an empty bucket, n of them
      sleep side by side and are all granted within 1 / rate, for every n. */
  lemma SleepersUnbounded(b: Bucket, n: nat) returns (events: seq<Event>)
    requires Bounded(b) && b.tokens == 0.0
    ensures Timed(b, map[], events, b.last, b.last + SleepFor(b.rate, 1.0))
    ensures GrantsBelow(b, map[], events, n) == n
  {
    var due := b.last + SleepFor(b.rate, 1.0);
    events := Arrivals(0, n, b.last) + Departures(0, n, due);
    assert Asleep(0, 0, b.last) == map[];
    CrowdSleeps(b, 0, n, due);
    hide SleepFor, Timed, GrantsOf;
    EachGranted(b, events, n, n);
  }

  lemma {:induction false} EachGranted(b: Bucket, events: seq<Event>, m: nat, n: nat)
    requires m <= n && forall c: nat :: c < n ==> GrantsOf(b, map[], events, c) == 1
    ensures GrantsBelow(b, map[], events, m) == m
  {
    hide GrantsOf;
    if m > 0 {
      EachGranted(b, events, m - 1, n);
    }
  }

  lemma {:induction false} CrowdSleeps(b: Bucket, k: nat, n: nat, due: real)
    requires Bounded(b) && b.tokens == 0.0 && k <= n && due == b.last + SleepFor(b.rate, 1.0)
    ensures var events := Arrivals(k, n, b.last) + Departures(0, n, due);
      && Timed(b, Asleep(0, k, b.last), events, b.last, due)
      && forall c: nat :: c < n ==> GrantsOf(b, Asleep(0, k, b.last), events, c) == 1
    decreases n - k
  {
    SleepRefills(b.rate, 1.0);
    if k == n {
      assert Arrivals(n, n, b.last) + Departures(0, n, due) == Departures(0, n, due);
      CrowdWakes(b, 0, n, b.last, due, b.last);
    } else {
      CrowdSleeps(b, k + 1, n, due);
      ArrivesEmpty(b);
      hide SleepFor, Enter;
      var events := Arrivals(k, n, b.last) + Departures(0, n, due);
      var rest := Arrivals(k + 1, n, b.last) + Departures(0, n, due);
      assert events == [Enters(k, b.last)] + rest;
      assert events[0] == Enters(k, b.last) && events[1..] == rest;
      assert Asleep(0, k, b.last)[k := Nap(b.last, 0.0)] == Asleep(0, k + 1, b.last);
      assert Moved(b, Asleep(0, k, b.last), events[0]) == (b, Asleep(0, k + 1, b.last));
    }
  }

  /** Whoever finds the bucket empty sleeps and leaves it as it is. */
  lemma ArrivesEmpty(b: Bucket)
    requires Bounded(b) && b.tokens == 0.0
    ensures Enter(b, b.last) == (b, MustSleep(SleepFor(b.rate, 1.0)))
  {
    FlowSplit(b.rate, b.last, b.last, b.last);
    assert Refill(b, b.last) == b;
  }

  lemma {:induction false} CrowdWakes(b: Bucket, k: nat, n: nat, since: real, due: real, from: real)
    requires Bounded(b) && b.tokens == 0.0 && k <= n && from <= due == since + SleepFor(b.rate, 1.0)
    ensures Timed(b, Asleep(k, n, since), Departures(k, n, due), from, due)
    ensures forall c: nat :: k <= c < n ==> GrantsOf(b, Asleep(k, n, since), Departures(k, n, due), c) == 1
    ensures forall c: nat :: c < k ==> GrantsOf(b, Asleep(k, n, since), Departures(k, n, due), c) == 0
    decreases n - k
  {
    if k < n {
      CrowdWakes(b, k + 1, n, since, due, due);
      hide SleepFor, Enter;
      var events := Departures(k, n, due);
      assert events[0] == Wakes(k, due) && events[1..] == Departures(k + 1, n, due);
      assert Asleep(k, n, since) - {k} == Asleep(k + 1, n, since);
      assert Moved(b, Asleep(k, n, since), events[0]) == (b, Asleep(k + 1, n, since));
    }
  }

  // --- Consecutive rejects -------------------------------------------------

  datatype OrderStatus = New | Ack | Partial | Filled | Cancelled | Rejected | Expired

  type Key = (string, string)   // symbol, strategy

  datatype StatusEvent = Status(key: Key, status: OrderStatus) | ClearStreak(key: Key)

  ghost predicate ClearsStreak(e: StatusEvent) {
    e.ClearStreak? || e.status in {Ack, Partial, Filled}
  }

  ghost function CountAfter(count: nat, e: StatusEvent, key: Key): nat {
    if e.key != key then count
    else if ClearsStreak(e) then 0
    else if e.status.Rejected? then count + 1
    else count
  }

  /** Venue rejections of `key` since its last successful round trip. */
  ghost function RejectsInARow(history: seq<StatusEvent>, key: Key): nat {
    if history == [] then 0
    else CountAfter(RejectsInARow(history[..|history| - 1], key), history[|history| - 1], key)
  }

  lemma RejectsSnoc(history: seq<StatusEvent>, e: StatusEvent)
    ensures forall key :: RejectsInARow(history + [e], key) == CountAfter(RejectsInARow(history, key), e, key)
  {
    assert (history + [e])[..|history|] == history;
  }

  ghost function Residue(n: nat, m: int): (r: int)
    requires m >= 1
    ensures 0 <= r < m && (n == 0 ==> r == 0)
  {
    n % m
  }

  lemma NextResidue(n: nat, m: int)
    requires m >= 1
    ensures Residue(n + 1, m) == if Residue(n, m) + 1 >= m then 0 else Residue(n, m) + 1
  {
    var q, r := n / m, n % m;
    assert n == m * q + r;
    var p, s := (n + 1) / m, (n + 1) % m;
    assert n + 1 == m * p + s;
    assert m * (p - q) == r + 1 - s;
    QuotientStep(m, p - q, r + 1 - s);
  }

  lemma QuotientStep(m: int, d: int, x: int)
    requires m >= 1 && m * d == x && -m < x <= m
    ensures (d == 0 && x == 0) || (d == 1 && x == m)
  {
    if d >= 2 { MulGrows(m, 2, d); }
    if d <= -1 { MulGrows(m, d, -1); }
  }

  lemma MulGrows(m: int, a: int, b: int)
    requires m >= 1 && a <= b
    ensures m * a <= m * b
  {
  }

  function CountIn(streak: map<Key, int>, key: Key): int {
    if key in streak then streak[key] else 0
  }

  class RejectMonitor {
    const maxRejects: int
    var streak: map<Key, int>
    ghost var history: seq<StatusEvent>

    ghost predicate Valid()
      reads this
    {
      && maxRejects >= 1
      && forall key :: CountIn(streak, key) == Residue(RejectsInARow(history, key), maxRejects)
    }

    constructor (configured: int)
      ensures Valid() && history == [] && maxRejects == (if configured > 1 then configured else 1)
    {
      maxRejects := if configured > 1 then configured else 1;
      streak := map[];
      history := [];
    }

    /** The breaker trips on exactly every maxRejects-th rejection in a row. */
    method RecordStatus(key: Key, status: OrderStatus) returns (tripped: bool)
      requires Valid()
      modifies this
      ensures Valid() && history == old(history) + [Status(key, status)]
      ensures tripped <==> status.Rejected? && Residue(RejectsInARow(history, key), maxRejects) == 0
    {
      tripped := false;
      var e := Status(key, status);
      history := history + [e];
      RejectsSnoc(old(history), e);
      NextResidue(RejectsInARow(old(history), key), maxRejects);
      hide Residue, RejectsInARow;
      if status.Rejected? {
        var count := CountIn(streak, key) + 1;
        if count >= maxRejects {
          tripped := true;
          count := 0;
        }
        streak := streak[key := count];
      } else if status in {Ack, Partial, Filled} {
        streak := streak - {key};
      }
    }

    method ClearRejectStreak(key: Key)
      requires Valid()
      modifies this
      ensures Valid() && history == old(history) + [ClearStreak(key)]
    {
      var e := ClearStreak(key);
      history := history + [e];
      RejectsSnoc(old(history), e);
      hide Residue, RejectsInARow;
      streak := streak - {key};
    }
  }
}
