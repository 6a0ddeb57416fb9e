/** In-process publish/subscribe with one bounded, drop-oldest queue per
    subscriber.  The bus lock is never held across a suspension point, so each
    publish, subscribe and get is one atomic step. */
module EventBus {
  import opened Collections

  datatype Event = Event(kind: string, payload: string, seqNo: nat)

  type Filter = Event -> bool

  // --- One queue, as a value -----------------------------------------------

  /** `queue` is the live queue.  `matched` is everything ever offered to it;
      `takenAt` and `droppedAt` are the positions in `matched` of the events its
      consumer got and of the events pushed out, each in order. */
  datatype Mailbox = Mailbox(queue: seq<Event>, matched: seq<Event>, takenAt: seq<nat>, droppedAt: seq<nat>)

  const EMPTY := Mailbox([], [], [], [])

  /** asyncio.Queue.full(): a non-positive maxsize means unbounded. */
  predicate Full(m: Mailbox, maxsize: int) {
    maxsize > 0 && |m.queue| >= maxsize
  }

  /** Position of the oldest queued event among all offered ones. */
  function Head(m: Mailbox): nat {
    if |m.matched| >= |m.queue| then |m.matched| - |m.queue| else 0
  }

  function Put(m: Mailbox, maxsize: int, e: Event): Mailbox {
    if Full(m, maxsize)
    then Mailbox(m.queue[1..] + [e], m.matched + [e], m.takenAt, m.droppedAt + [Head(m)])
    else m.(queue := m.queue + [e], matched := m.matched + [e])
  }

  function Get(m: Mailbox): Mailbox
    requires |m.queue| > 0
  {
    m.(queue := m.queue[1..], takenAt := m.takenAt + [Head(m)])
  }

  ghost predicate Increasing(q: seq<nat>, below: nat) {
    && (forall i, j :: 0 <= i < j < |q| ==> q[i] < q[j])
    && (forall i :: 0 <= i < |q| ==> q[i] < below)
  }

  /** `a` and `b` list 0 .. below - 1 between them, each in order. */
  ghost predicate Partition(a: seq<nat>, b: seq<nat>, below: nat) {
    && Increasing(a, below) && Increasing(b, below)
    && (forall k :: 0 <= k < below ==> (k in a) != (k in b))
  }

  /** Every listed position is followed by at least `maxsize` more below `n`. */
  ghost predicate FollowedBy(q: seq<nat>, maxsize: int, n: nat) {
    forall i :: 0 <= i < |q| ==> q[i] + maxsize < n
  }

  ghost predicate MailboxInv(m: Mailbox, maxsize: int) {
    && (maxsize > 0 ==> |m.queue| <= maxsize)
    // the queue is the most recent contiguous suffix of what was offered
    && |m.queue| <= |m.matched| && m.queue == m.matched[Head(m)..]
    // conservation: offered = taken + dropped + queued
    && |m.matched| == |m.takenAt| + |m.droppedAt| + |m.queue|
    // everything before the queue was either taken or dropped, once, in order
    && Partition(m.takenAt, m.droppedAt, Head(m))
    // an event is dropped only once maxsize newer ones have been offered
    && FollowedBy(m.droppedAt, maxsize, |m.matched|)
    && (maxsize <= 0 ==> m.droppedAt == [])
  }

  lemma PutKeepsInv(m: Mailbox, maxsize: int, e: Event)
    requires MailboxInv(m, maxsize)
    ensures MailboxInv(Put(m, maxsize, e), maxsize)
  {
    PutKeepsSuffix(m, maxsize, e);
    PartitionGrows(m.takenAt, m.droppedAt, Head(m));
    FollowersGrow(m.droppedAt, maxsize, |m.matched|, Head(m));
    hide Partition, FollowedBy;
  }

  lemma FollowersGrow(q: seq<nat>, maxsize: int, n: nat, k: nat)
    requires FollowedBy(q, maxsize, n)
    ensures FollowedBy(q, maxsize, n + 1)
    ensures k + maxsize < n + 1 ==> FollowedBy(q + [k], maxsize, n + 1)
  {
  }

  /** The boundary position can join either half of a partition. */
  lemma PartitionGrows(a: seq<nat>, b: seq<nat>, k: nat)
    requires Partition(a, b, k)
    ensures Partition(a + [k], b, k + 1) && Partition(a, b + [k], k + 1)
  {
    assert k !in a && k !in b;
    assert forall x :: x in a + [k] <==> x in a || x == k;
    assert forall x :: x in b + [k] <==> x in b || x == k;
  }

  lemma PutKeepsSuffix(m: Mailbox, maxsize: int, e: Event)
    requires |m.queue| <= |m.matched| && m.queue == m.matched[Head(m)..]
    ensures var p := Put(m, maxsize, e);
      && |p.queue| <= |p.matched| && p.queue == p.matched[Head(p)..]
      && Head(p) == Head(m) + (if Full(m, maxsize) then 1 else 0)
  {
  }

  lemma GetKeepsInv(m: Mailbox, maxsize: int)
    requires MailboxInv(m, maxsize) && |m.queue| > 0
    ensures MailboxInv(Get(m), maxsize)
    ensures m.queue[0] == m.matched[Head(m)]
  {
    PartitionGrows(m.takenAt, m.droppedAt, Head(m));
    hide Partition, FollowedBy;
  }

  datatype Op = OfferOp(e: Event) | TakeOp

  /** A consumer that finds the queue empty waits: no effect. */
  function Run(maxsize: int, ops: seq<Op>): Mailbox {
    if ops == [] then EMPTY
    else
      var m, op := Run(maxsize, ops[..|ops| - 1]), ops[|ops| - 1];
      if op.OfferOp? then Put(m, maxsize, op.e)
      else if |m.queue| > 0 then Get(m)
      else m
  }

  function Offered(ops: seq<Op>): seq<Event> {
    if ops == [] then []
    else
      var op := ops[|ops| - 1];
      Offered(ops[..|ops| - 1]) + (if op.OfferOp? then [op.e] else [])
  }

  /** Over every interleaving of offers and gets: the bound holds, the queue is
      the most recent suffix of the offers, every other offer was taken or dropped
      exactly once, in order, and only after maxsize newer offers was any dropped. */
  lemma {:induction false} EveryInterleaving(maxsize: int, ops: seq<Op>)
    ensures MailboxInv(Run(maxsize, ops), maxsize)
    ensures Run(maxsize, ops).matched == Offered(ops)
  {
    if ops != [] {
      var prefix, op := ops[..|ops| - 1], ops[|ops| - 1];
      EveryInterleaving(maxsize, prefix);
      var m := Run(maxsize, prefix);
      if op.OfferOp? {
        PutKeepsInv(m, maxsize, op.e);
      } else if |m.queue| > 0 {
        GetKeepsInv(m, maxsize);
      }
    }
  }

  /** A consumer that asks while something is queued gets the oldest queued event. */
  lemma TakeGetsOldest(maxsize: int, ops: seq<Op>)
    requires Run(maxsize, ops).queue != []
    ensures var before, after := Run(maxsize, ops), Run(maxsize, ops + [TakeOp]);
      && after.queue == before.queue[1..] && |after.takenAt| == |before.takenAt| + 1
      && after.takenAt[|before.takenAt|] < |after.matched|
      && after.matched[after.takenAt[|before.takenAt|]] == before.queue[0]
  {
    EveryInterleaving(maxsize, ops);
    assert (ops + [TakeOp])[..|ops|] == ops;
    GetKeepsInv(Run(maxsize, ops), maxsize);
    hide Partition, FollowedBy;
  }

  // --- Subscribers and the bus ---------------------------------------------

  class Subscriber {
    const accepts: Filter
    const maxsize: int
    var queue: seq<Event>
    ghost var box: Mailbox
    ghost const joined: nat        // length of the bus history when it subscribed

    ghost predicate Valid()
      reads this
    {
      box.queue == queue && MailboxInv(box, maxsize)
    }

    constructor (accepts: Filter, maxsize: int, ghost joined: nat)
      ensures Valid() && queue == [] && box == EMPTY
      ensures this.accepts == accepts && this.maxsize == maxsize && this.joined == joined
    {
      this.accepts := accepts;
      this.maxsize := maxsize;
      this.joined := joined;
      queue := [];
      box := EMPTY;
    }

    /** put_nowait after making room. */
    method Deliver(e: Event)
      requires Valid()
      modifies this
      ensures Valid() && box == Put(old(box), maxsize, e)
    {
      PutKeepsInv(box, maxsize, e);
      hide MailboxInv;
      if maxsize > 0 && |queue| >= maxsize {
        queue := queue[1..];
      }
      queue := queue + [e];
      box := Put(box, maxsize, e);
    }

    /** The consumer's get(), when something is queued. */
    method Take() returns (e: Option<Event>)
      requires Valid()
      modifies this
      ensures Valid()
      ensures old(queue) == [] ==> e.None? && box == old(box)
      ensures old(queue) != [] ==> e == Some(old(queue)[0]) && box == Get(old(box))
    {
      if |queue| == 0 {
        return None;
      }
      e := Some(queue[0]);
      GetKeepsInv(box, maxsize);
      queue := queue[1..];
      box := Get(box);
    }
  }

  ghost function Matching(events: seq<Event>, accepts: Filter): seq<Event> {
    if events == [] then []
    else
      var e := events[|events| - 1];
      Matching(events[..|events| - 1], accepts) + (if accepts(e) then [e] else [])
  }

  lemma MatchingSnoc(events: seq<Event>, e: Event, accepts: Filter, from: nat)
    requires from <= |events|
    ensures Matching((events + [e])[from..], accepts)
         == Matching(events[from..], accepts) + (if accepts(e) then [e] else [])
  {
    var tail := (events + [e])[from..];
    assert tail == events[from..] + [e];
    assert tail[..|tail| - 1] == events[from..];
  }

  const JOURNAL_CAPACITY := 20000

  /** The events that were taken, in order. */
  ghost function Taken(m: Mailbox): seq<Event>
    requires forall i :: 0 <= i < |m.takenAt| ==> m.takenAt[i] < |m.matched|
  {
    seq(|m.takenAt|, i requires 0 <= i < |m.takenAt| => m.matched[m.takenAt[i]])
  }

  /** The journal as a mailbox: what was offered to it, what was written, what the full
      queue dropped, and what still waits for the writer. */
  ghost predicate JournalInv(m: Mailbox, journaled: seq<Event>, waiting: seq<Event>) {
    MailboxInv(m, JOURNAL_CAPACITY) && journaled == Taken(m) && waiting == m.queue
  }

  /** The journal was offered everything published since it was attached. */
  ghost predicate OfferedSince(m: Mailbox, at: nat, history: seq<Event>) {
    at <= |history| && m.matched == history[at..]
  }

  lemma OfferedSnoc(m: Mailbox, at: nat, history: seq<Event>, next: Mailbox, e: Event)
    requires OfferedSince(m, at, history) && next.matched == m.matched + [e]
    ensures OfferedSince(next, at, history + [e])
  {
    assert (history + [e])[at..] == history[at..] + [e];
  }

  /** Without a writer an event is written at once. */
  ghost function Journaled(m: Mailbox, writer: bool, e: Event): Mailbox {
    var put := Put(m, JOURNAL_CAPACITY, e);
    if writer || put.queue == [] then put else Get(put)
  }

  lemma JournalPuts(m: Mailbox, journaled: seq<Event>, waiting: seq<Event>, e: Event)
    requires JournalInv(m, journaled, waiting)
    ensures JournalInv(Put(m, JOURNAL_CAPACITY, e), journaled, Put(m, JOURNAL_CAPACITY, e).queue)
  {
    PutKeepsInv(m, JOURNAL_CAPACITY, e);
    hide FollowedBy;
  }

  lemma JournalGets(m: Mailbox, journaled: seq<Event>, waiting: seq<Event>)
    requires JournalInv(m, journaled, waiting) && waiting != []
    ensures JournalInv(Get(m), journaled + [waiting[0]], waiting[1..])
  {
    GetKeepsInv(m, JOURNAL_CAPACITY);
    hide FollowedBy;
  }

  lemma NoJournal()
    ensures JournalInv(EMPTY, [], [])
  {
    hide MailboxInv;
    EmptyMailbox(JOURNAL_CAPACITY);
  }

  lemma EmptyMailbox(maxsize: int)
    ensures MailboxInv(EMPTY, maxsize)
  {
    EveryInterleaving(maxsize, []);
    hide MailboxInv;
  }

  /** The queue was offered exactly the matching events published since its
      subscriber joined. */
  ghost predicate InSync(s: Subscriber, queueSize: int, history: seq<Event>)
    reads s
  {
    && s.Valid() && s.maxsize == queueSize && s.joined <= |history|
    && s.box.matched == Matching(history[s.joined..], s.accepts)
  }

  /** What publishing `e` does to one queue: only matching events are put. */
  ghost function Offer(before: Mailbox, s: Subscriber, e: Event): Mailbox {
    if s.accepts(e) then Put(before, s.maxsize, e) else before
  }

  ghost predicate NoRepeats(subscribers: seq<Subscriber>) {
    forall i, j :: 0 <= i < j < |subscribers| ==> subscribers[i] != subscribers[j]
  }

  ghost predicate AllInSync(subscribers: seq<Subscriber>, queueSize: int, history: seq<Event>)
    reads subscribers
  {
    forall s :: s in subscribers ==> InSync(s, queueSize, history)
  }

  lemma AllInSyncSnoc(subscribers: seq<Subscriber>, s: Subscriber, queueSize: int, history: seq<Event>)
    requires AllInSync(subscribers, queueSize, history) && InSync(s, queueSize, history)
    ensures AllInSync(subscribers + [s], queueSize, history)
  {
    hide InSync;
  }

  lemma NoRepeatsSnoc(subscribers: seq<Subscriber>, s: Subscriber)
    requires NoRepeats(subscribers) && s !in subscribers
    ensures NoRepeats(subscribers + [s])
    ensures forall t :: t in subscribers + [s] <==> t in subscribers || t == s
  {
  }

  class Bus {
    const queueSize: int
    var subscribers: seq<Subscriber>
    var nextSeq: nat
    var journalAttached: bool
    var journalQueue: Subscriber?      // present while the writer task runs
    var journaled: seq<Event>          // what was appended to the journal
    ghost var journalBox: Mailbox      // what was offered to the journal since it was attached
    ghost var attachedAt: nat
    ghost var history: seq<Event>      // every event published, as delivered
    ghost var numberedElsewhere: bool  // some event came with its own number

    ghost predicate Distinct()
      reads this
    {
      NoRepeats(subscribers) && (journalQueue != null ==> journalQueue !in subscribers)
    }

    ghost predicate Valid()
      reads this, subscribers, journalQueue
    {
      && Distinct()
      && AllInSync(subscribers, queueSize, history)
      && (journalQueue != null ==> journalQueue.Valid() && journalQueue.maxsize == JOURNAL_CAPACITY)
      && JournalInv(journalBox, journaled, if journalQueue != null then journalQueue.queue else [])
      && (if journalAttached then OfferedSince(journalBox, attachedAt, history)
          else journalQueue == null && journalBox == EMPTY)
      && nextSeq <= |history|
      && (!numberedElsewhere ==> nextSeq == |history|)
      && (!numberedElsewhere ==> forall i :: 0 <= i < |history| ==> history[i].seqNo == i + 1)
    }

    constructor (queueSize: int)
      ensures Valid() && subscribers == [] && history == [] && !numberedElsewhere
      ensures this.queueSize == queueSize && journalQueue == null && !journalAttached
    {
      this.queueSize := queueSize;
      subscribers, nextSeq, journalAttached, journalQueue, journaled := [], 0, false, null, [];
      history, numberedElsewhere := [], false;
      journalBox, attachedAt := EMPTY, 0;
      new;
      NoJournal();
    }

    /** attach_journal, for the first journal. */
    method AttachJournal()
      requires Valid() && !journalAttached
      modifies this`journalAttached, this`attachedAt
      ensures Valid() && journalAttached && attachedAt == |history|
    {
      journalAttached, attachedAt := true, |history|;
    }

    /** start_journal_writer */
    method StartJournalWriter()
      requires Valid()
      modifies this`journalQueue
      ensures Valid() && journalBox == old(journalBox)
      ensures if !journalAttached || old(journalQueue) != null then journalQueue == old(journalQueue)
              else journalQueue != null && fresh(journalQueue)
    {
      if !journalAttached || journalQueue != null {
        return;
      }
      hide MailboxInv, AllInSync, JournalInv, OfferedSince;
      journalQueue := new Subscriber(_ => true, JOURNAL_CAPACITY, |history|);
    }

    /** One turn of the journal writer, when something is queued. */
    method WriteJournal()
      requires Valid() && journalQueue != null && journalQueue.queue != []
      modifies this`journaled, this`journalBox, journalQueue
      ensures Valid() && journalBox == Get(old(journalBox))
      ensures journaled == old(journaled) + [old(journalQueue.queue[0])]
      ensures journalQueue.queue == old(journalQueue.queue[1..])
    {
      JournalGets(journalBox, journaled, journalQueue.queue);
      hide MailboxInv, AllInSync, JournalInv, OfferedSince;
      var e := journalQueue.Take();
      journaled := journaled + [e.value];
      journalBox := Get(journalBox);
    }

    method Subscribe(accepts: Filter) returns (s: Subscriber)
      requires Valid()
      modifies this
      ensures Valid() && fresh(s) && s.box == EMPTY
      ensures s.accepts == accepts && s.joined == |history|
      ensures subscribers == old(subscribers) + [s] && history == old(history)
      ensures numberedElsewhere == old(numberedElsewhere)
    {
      hide MailboxInv, Matching, Put, InSync, JournalInv, OfferedSince, NoRepeats, AllInSync;
      s := new Subscriber(accepts, queueSize, |history|);
      NothingMissedYet(s, history);
      NoRepeatsSnoc(subscribers, s);
      AllInSyncSnoc(subscribers, s, queueSize, history);
      subscribers := subscribers + [s];
    }

    /** Leaving the subscribe() context. */
    method Unsubscribe(s: Subscriber)
      requires Valid()
      modifies this
      ensures Valid() && history == old(history)
      ensures forall t :: t in subscribers <==> t in old(subscribers) && t != s
    {
      hide OfferedSince;
      hide InSync, JournalInv, MailboxInv;
      var kept: seq<Subscriber> := [];
      for i := 0 to |subscribers|
        invariant forall t :: t in kept <==> t in subscribers[..i] && t != s
        invariant forall a, b :: 0 <= a < b < |kept| ==> kept[a] != kept[b]
      {
        if subscribers[i] != s {
          assert subscribers[i] !in subscribers[..i];
          kept := kept + [subscribers[i]];
        }
      }
      assert subscribers[..|subscribers|] == subscribers;
      subscribers := kept;
    }

    /** publish(): number the event, journal it, fan it out. */
    method Publish(event: Event) returns (delivered: Event)
      requires Valid()
      modifies this, subscribers, journalQueue
      ensures Valid() && subscribers == old(subscribers)
      ensures journalBox == if journalAttached then Journaled(old(journalBox), journalQueue != null, delivered)
                            else old(journalBox)
      ensures journalAttached == old(journalAttached) && attachedAt == old(attachedAt)
      ensures history == old(history) + [delivered]
      ensures delivered == if event.seqNo == 0 then event.(seqNo := old(nextSeq) + 1) else event
      ensures numberedElsewhere == (old(numberedElsewhere) || event.seqNo != 0)
      ensures forall s :: s in subscribers ==> s.box == Offer(old(s.box), s, delivered)
      ensures journalQueue == old(journalQueue)
      ensures journalAttached && journalQueue != null ==>
        journalQueue.box == Put(old(journalQueue.box), JOURNAL_CAPACITY, delivered)
      ensures journaled == old(journaled)
                           + if journalAttached && journalQueue == null then [delivered] else []
    {
      hide OfferedSince;
      hide MailboxInv, Matching, Put, JournalInv, InSync, Journaled;
      delivered := event;
      if event.seqNo == 0 {
        nextSeq := nextSeq + 1;
        delivered := event.(seqNo := nextSeq);
      }
      if journalAttached {
        EnqueueJournal(delivered);
      }
      if journalAttached {
        OfferedSnoc(old(journalBox), attachedAt, history, journalBox, delivered);
      }
      FanOut(delivered, history);
      history := history + [delivered];
      numberedElsewhere := numberedElsewhere || event.seqNo != 0;
    }

    method EnqueueJournal(e: Event)
      requires journalAttached && (journalQueue != null ==> journalQueue.Valid())
      requires journalQueue != null ==> journalQueue.maxsize == JOURNAL_CAPACITY
      requires JournalInv(journalBox, journaled, if journalQueue != null then journalQueue.queue else [])
      modifies this`journaled, this`journalBox, journalQueue
      ensures journalQueue != null ==> journalQueue.Valid()
      ensures journalQueue != null ==> journalQueue.box == Put(old(journalQueue.box), JOURNAL_CAPACITY, e)
      ensures journalQueue != null ==> journaled == old(journaled)
      ensures journalQueue == null ==> journaled == old(journaled) + [e]
      ensures JournalInv(journalBox, journaled, if journalQueue != null then journalQueue.queue else [])
      ensures journalBox == Journaled(old(journalBox), journalQueue != null, e)
      ensures journalBox.matched == old(journalBox.matched) + [e]
    {
      JournalPuts(journalBox, journaled, if journalQueue != null then journalQueue.queue else [], e);
      journalBox := Put(journalBox, JOURNAL_CAPACITY, e);
      if journalQueue == null {
        JournalGets(journalBox, journaled, [e]);
        journaled := journaled + [e];
        journalBox := Get(journalBox);
      } else {
        hide MailboxInv;
        journalQueue.Deliver(e);
      }
    }

    method FanOut(e: Event, ghost before: seq<Event>)
      requires Distinct()
      requires forall s :: s in subscribers ==> InSync(s, queueSize, before)
      modifies subscribers
      ensures forall s :: s in subscribers ==> InSync(s, queueSize, before + [e])
      ensures forall s :: s in subscribers ==> s.box == Offer(old(s.box), s, e)
    {
      hide MailboxInv, Matching, Put, InSync;
      assert forall j :: 0 <= j < |subscribers| ==> subscribers[j] in subscribers;
      for i := 0 to |subscribers|
        invariant forall j :: 0 <= j < i ==> InSync(subscribers[j], queueSize, before + [e])
        invariant forall j :: 0 <= j < i ==> subscribers[j].box == Offer(old(subscribers[j].box), subscribers[j], e)
        invariant forall j :: i <= j < |subscribers| ==> InSync(subscribers[j], queueSize, before)
        invariant forall j :: i <= j < |subscribers| ==> subscribers[j].box == old(subscribers[j].box)
      {
        OfferOne(subscribers[i], e, before);
      }
    }

    method OfferOne(s: Subscriber, e: Event, ghost before: seq<Event>)
      requires InSync(s, queueSize, before)
      modifies s
      ensures InSync(s, queueSize, before + [e]) && s.box == Offer(old(s.box), s, e)
    {
      hide MailboxInv, Matching;
      MatchingSnoc(before, e, s.accepts, s.joined);
      if s.accepts(e) {
        s.Deliver(e);
      }
    }
  }

  /** Every event published since the journal was attached is written, waits for the
      writer, or was dropped from the full queue, once and in order; only what 20000
      newer events pushed out is dropped, and what is written is what was published. */
  lemma JournalAccountsForAll(bus: Bus)
    requires bus.Valid() && bus.journalAttached
    ensures var m, published := bus.journalBox, bus.history[bus.attachedAt..];
      && |bus.journaled| == |m.takenAt|
      && (forall i :: 0 <= i < |m.takenAt| ==>
            m.takenAt[i] < |published| && bus.journaled[i] == published[m.takenAt[i]])
      && |bus.journaled| + |m.droppedAt| + |m.queue| == |published|
      && m.queue == published[|published| - |m.queue|..]
      && Partition(m.takenAt, m.droppedAt, |published| - |m.queue|)
      && (forall i :: 0 <= i < |m.droppedAt| ==> m.droppedAt[i] + JOURNAL_CAPACITY < |published|)
  {
  }

  lemma NothingMissedYet(s: Subscriber, history: seq<Event>)
    requires s.Valid() && s.box == EMPTY && |history| == s.joined
    ensures InSync(s, s.maxsize, history)
  {
  }

  lemma {:induction false} MatchingNumbers(events: seq<Event>, accepts: Filter, base: nat)
    requires forall i :: 0 <= i < |events| ==> events[i].seqNo == base + i
    ensures forall e :: e in Matching(events, accepts) ==> base <= e.seqNo < base + |events|
    ensures forall i, j :: 0 <= i < j < |Matching(events, accepts)| ==>
              Matching(events, accepts)[i].seqNo < Matching(events, accepts)[j].seqNo
  {
    if events != [] {
      MatchingNumbers(events[..|events| - 1], accepts, base);
    }
  }

  /** When the bus assigns every number, each consumer sees strictly increasing
      sequence numbers: in its queue, and over everything it ever took. */
  lemma NumbersIncrease(bus: Bus, s: Subscriber)
    requires bus.Valid() && s in bus.subscribers && !bus.numberedElsewhere
    ensures forall i, j :: 0 <= i < j < |s.queue| ==> s.queue[i].seqNo < s.queue[j].seqNo
    ensures forall i, j :: 0 <= i < j < |s.box.takenAt| ==>
              s.box.matched[s.box.takenAt[i]].seqNo < s.box.matched[s.box.takenAt[j]].seqNo
  {
    hide JournalInv, OfferedSince, NoRepeats;
    MatchingNumbers(bus.history[s.joined..], s.accepts, s.joined + 1);
  }
}
