/**
 One subscriber of the relay, as pure state and pure steps: its bounded queue with the histories of
 what was submitted, accepted, pulled and delivered, its sender goroutine, and any number of `Close`
 calls interleaving inside and outside the subscriber's lock.
 */
module Subscriber {
  import opened Wrappers
  import opened Sequences
  import opened Flv

  /** sendQueueLength. */
  const QUEUE_LENGTH: nat := 2 * 60 * 10

  // ---------------------------------------------------------------- the queue

  /** `intact` counts the tags accepted before the first overflow. */
  datatype Feed = Feed(
    queue: seq<Tag>, queueClosed: bool,
    submitted: seq<Tag>, accepted: seq<Tag>, pulled: seq<Tag>, delivered: seq<Tag>,
    intact: nat)

  const NO_FEED := Feed([], false, [], [], [], [], 0)

  predicate Full(f: Feed) {
    |f.queue| >= QUEUE_LENGTH
  }

  /** The select of `Submit`: enqueue, or drop when the queue is full. */
  function Submit(f: Feed, t: Tag): Feed {
    if Full(f) then f.(submitted := f.submitted + [t])
    else f.(
      queue := f.queue + [t], submitted := f.submitted + [t], accepted := f.accepted + [t],
      intact := if |f.accepted| == |f.submitted| then |f.accepted| + 1 else f.intact)
  }

  function Pull(f: Feed): Feed
    requires f.queue != []
  {
    f.(queue := f.queue[1..], pulled := f.pulled + [f.queue[0]])
  }

  /** Bounded queue conservation. Nothing in the relay closes a queue, so none is ever closed. */
  predicate FeedInv(f: Feed) {
    && |f.queue| <= QUEUE_LENGTH
    && !f.queueClosed
    && f.pulled + f.queue == f.accepted
    && Subseq(f.accepted, f.submitted)
    && f.intact <= |f.accepted| <= |f.submitted|
    && f.accepted[..f.intact] == f.submitted[..f.intact]
    && (|f.accepted| == |f.submitted| ==> f.intact == |f.accepted|)
    && (|f.accepted| < |f.submitted| ==> f.intact >= 1200)
  }

  /** A tag is accepted exactly while fewer than 1200 are queued. */
  lemma AcceptedExactlyWhen(f: Feed, t: Tag)
    requires FeedInv(f)
    ensures Submit(f, t).accepted == f.accepted + [t] <==> |f.queue| < 1200
    ensures Submit(f, t).accepted == f.accepted <==> |f.queue| == 1200
  {
    assert |f.accepted + [t]| == |f.accepted| + 1;
  }

  lemma SubmitKeepsFeed(f: Feed, t: Tag)
    requires FeedInv(f)
    ensures FeedInv(Submit(f, t))
  {
    SubseqSnoc(f.accepted, f.submitted, t);
    if Full(f) {
      assert (f.submitted + [t])[..f.intact] == f.submitted[..f.intact];
    } else {
      AcceptKeepsFeed(f, t);
    }
  }

  lemma AcceptKeepsFeed(f: Feed, t: Tag)
    requires FeedInv(f) && !Full(f) && Subseq(f.accepted + [t], f.submitted + [t])
    ensures FeedInv(Submit(f, t))
  {
    var g := Submit(f, t);
    ConcatAssoc(f.pulled, f.queue, [t]);
    if |f.accepted| == |f.submitted| {
      assert f.accepted[..f.intact] == f.accepted && f.submitted[..f.intact] == f.submitted;
      assert g.accepted[..g.intact] == g.accepted && g.submitted[..g.intact] == g.submitted;
    } else {
      assert g.accepted[..g.intact] == f.accepted[..f.intact] && g.submitted[..g.intact] == f.submitted[..f.intact];
    }
  }

  lemma SubseqSnoc(a: seq<Tag>, b: seq<Tag>, t: Tag)
    requires Subseq(a, b)
    ensures Subseq(a, b + [t]) && Subseq(a + [t], b + [t])
  {
    assert (b + [t])[..|b|] == b && (a + [t])[..|a|] == a;
  }

  lemma PullKeepsFeed(f: Feed)
    requires FeedInv(f) && f.queue != []
    ensures FeedInv(Pull(f))
  {
    assert f.pulled + [f.queue[0]] + f.queue[1..] == f.pulled + f.queue;
  }

  // ---------------------------------------------------------------- Close

  /** Program points of one `Close` call, in order. `Locked` up to `Leaving` hold the lock. */
  datatype ClosePc = Begun | Cancelled | Locked | ConnDone | ChanDone | MarkedClosed | Leaving | Returned

  function Rank(pc: ClosePc): nat {
    match pc
    case Begun => 0 case Cancelled => 1 case Locked => 2 case ConnDone => 3
    case ChanDone => 4 case MarkedClosed => 5 case Leaving => 6 case Returned => 7
  }

  predicate InSection(pc: ClosePc) {
    2 <= Rank(pc) <= 6
  }

  /** The closing half of a subscriber: its Go fields, the `Close` calls under way, and how often the
      connection and the channel were closed and by which call. */
  datatype Shut = Shut(
    hadConn: bool, conn: bool, cancelled: bool, chanClosed: bool, closed: bool,
    locker: Option<nat>, calls: seq<ClosePc>,
    entered: seq<nat>, returned: seq<nat>,
    connCloses: nat, chanCloses: nat, chanCloser: Option<nat>)

  function NewShut(hasConn: bool): Shut {
    Shut(hasConn, hasConn, false, false, false, None, [], [], [], 0, 0, None)
  }

  function Begin(s: Shut): Shut {
    s.(calls := s.calls + [Begun])
  }

  predicate CanClose(s: Shut, c: nat) {
    && c < |s.calls|
    && s.calls[c] != Returned
    && (s.calls[c] == Cancelled ==> s.locker.None?)
  }

  /** One step of call `c`; unregistering after `MarkedClosed` happens in the registry. */
  function CloseStep(s: Shut, c: nat): Shut
    requires CanClose(s, c)
  {
    match s.calls[c]
    case Begun => s.(cancelled := true, calls := s.calls[c := Cancelled])
    case Cancelled => s.(locker := Some(c), entered := s.entered + [c], calls := s.calls[c := Locked])
    case Locked =>
      s.(conn := false, connCloses := if s.conn then s.connCloses + 1 else s.connCloses,
         calls := s.calls[c := ConnDone])
    case ConnDone =>
      if s.chanClosed then s.(calls := s.calls[c := ChanDone])
      else s.(chanClosed := true, chanCloses := s.chanCloses + 1, chanCloser := Some(c),
              calls := s.calls[c := ChanDone])
    case ChanDone =>
      if s.closed then s.(calls := s.calls[c := Leaving])
      else s.(closed := true, calls := s.calls[c := MarkedClosed])
    case MarkedClosed => s.(calls := s.calls[c := Leaving])
    case Leaving => s.(locker := None, returned := s.returned + [c], calls := s.calls[c := Returned])
  }

  predicate CallInv(s: Shut, registered: bool, c: nat)
    requires c < |s.calls|
  {
    var r := Rank(s.calls[c]);
    && (InSection(s.calls[c]) ==> s.locker == Some(c))
    && (r >= 1 ==> s.cancelled)
    && (r >= 3 ==> !s.conn)
    && (r >= 4 ==> s.chanClosed)
    && (r >= 5 ==> s.closed)
    && (r >= 6 ==> !registered)
    && (r == 7 <==> c in s.returned)
  }

  predicate CallsInv(s: Shut, registered: bool) {
    forall c :: 0 <= c < |s.calls| ==> CallInv(s, registered, c)
  }

  /** `Close` under any interleaving: one holder of the lock; the connection and the channel closed at
      most once, the channel by the call that entered first and returns first; a closed subscriber is
      registered only while the holder is about to unregister it. */
  predicate ShutInv(s: Shut, registered: bool) {
    && CallsInv(s, registered)
    && (s.locker.Some? ==> s.locker.value < |s.calls| && InSection(s.calls[s.locker.value]))
    && s.connCloses == (if s.hadConn && !s.conn then 1 else 0)
    && (s.conn ==> s.hadConn)
    && s.chanCloses == (if s.chanClosed then 1 else 0)
    && (s.chanClosed <==> s.chanCloser.Some?)
    && (s.closed ==> s.cancelled)
    && s.entered == s.returned + (if s.locker.Some? then [s.locker.value] else [])
    && (forall c :: c in s.returned ==> c < |s.calls|)
    && (s.chanClosed ==> s.entered != [] && s.chanCloser == Some(s.entered[0]))
    && (s.returned != [] ==> s.closed && s.chanClosed)
    && (s.closed && registered ==> s.locker.Some? && s.calls[s.locker.value] == MarkedClosed)
  }

  lemma BeginKeepsShut(s: Shut, registered: bool)
    requires ShutInv(s, registered)
    ensures ShutInv(Begin(s), registered)
  {
    var s' := Begin(s);
    forall c | 0 <= c < |s'.calls| ensures CallInv(s', registered, c) {
      assert c < |s.calls| ==> CallInv(s, registered, c);
    }
  }

  lemma CloseStepKeepsShut(s: Shut, registered: bool, c: nat)
    requires ShutInv(s, registered) && CanClose(s, c)
    ensures ShutInv(CloseStep(s, c), registered && s.calls[c] != MarkedClosed)
  {
    CloseStepKeepsCalls(s, registered, c);
    assert CallInv(s, registered, c);
  }

  lemma CloseStepKeepsCalls(s: Shut, registered: bool, c: nat)
    requires ShutInv(s, registered) && CanClose(s, c)
    ensures CallsInv(CloseStep(s, c), registered && s.calls[c] != MarkedClosed)
  {
    var s', reg' := CloseStep(s, c), registered && s.calls[c] != MarkedClosed;
    forall d | 0 <= d < |s'.calls| ensures CallInv(s', reg', d) {
      CloseStepKeepsCall(s, registered, c, d);
    }
  }

  lemma CloseStepKeepsCall(s: Shut, registered: bool, c: nat, d: nat)
    requires ShutInv(s, registered) && CanClose(s, c) && d < |s.calls|
    ensures CallInv(CloseStep(s, c), registered && s.calls[c] != MarkedClosed, d)
  {
    assert CallInv(s, registered, c) && CallInv(s, registered, d);
    assert s.calls[c] == Leaving ==>
             (d in CloseStep(s, c).returned <==> d in s.returned || d == c);
  }

  /** How many steps the calls have left at most. */
  function Remaining(calls: seq<ClosePc>): nat {
    if calls == [] then 0 else Remaining(calls[..|calls| - 1]) + 7 - Rank(calls[|calls| - 1])
  }

  lemma {:induction false} RemainingUpdate(calls: seq<ClosePc>, c: nat, pc: ClosePc)
    requires c < |calls|
    ensures Remaining(calls[c := pc]) == Remaining(calls) + Rank(calls[c]) - Rank(pc)
  {
    var front, last := calls[..|calls| - 1], calls[|calls| - 1];
    if c < |front| {
      RemainingUpdate(front, c, pc);
      assert calls[c := pc][..|calls| - 1] == front[c := pc];
    } else {
      assert calls[c := pc][..|calls| - 1] == front;
    }
  }

  lemma {:induction false} RemainingAtMost(calls: seq<ClosePc>)
    ensures Remaining(calls) <= 7 * |calls|
  {
    if calls != [] {
      RemainingAtMost(calls[..|calls| - 1]);
    }
  }

  lemma CloseStepMoves(s: Shut, c: nat) returns (pc: ClosePc)
    requires CanClose(s, c)
    ensures CloseStep(s, c).calls == s.calls[c := pc] && Rank(pc) > Rank(s.calls[c])
  {
    pc := CloseStep(s, c).calls[c];
  }

  lemma CloseStepShrinks(s: Shut, c: nat)
    requires CanClose(s, c)
    ensures Remaining(CloseStep(s, c).calls) < Remaining(s.calls)
  {
    var pc := CloseStepMoves(s, c);
    RemainingUpdate(s.calls, c, pc);
  }

  /** No deadlock: while a call is unfinished, the holder of the lock or the call itself can go on. */
  lemma SomeCallSteps(s: Shut, registered: bool, c: nat) returns (d: nat)
    requires ShutInv(s, registered) && c < |s.calls| && s.calls[c] != Returned
    ensures CanClose(s, d)
  {
    d := if s.locker.Some? then s.locker.value else c;
  }

  lemma UnregisterKeepsShut(s: Shut)
    requires ShutInv(s, true) || ShutInv(s, false)
    ensures ShutInv(s, false)
  {
    forall c | 0 <= c < |s.calls| ensures CallInv(s, false, c) {
      assert CallInv(s, true, c) || CallInv(s, false, c);
    }
  }

  // ---------------------------------------------------------------- the sender

  /** The sender goroutine: waiting, holding a tag it pulled, past the check of `closed` in `onEvent`,
      inside the callback, or ended by the cancelled context. */
  datatype Sender = Waiting | Holding(tag: Tag) | Passed(tag: Tag) | InCallback | Ended

  function Pending(p: Sender): nat {
    if p.Passed? then 1 else 0
  }

  /** Callbacks start for a prefix of what was pulled, and nothing is skipped before `closed` is set. */
  predicate SenderInv(f: Feed, closed: bool, p: Sender) {
    && f.delivered <= f.pulled
    && match p
       case Holding(t) =>
         && f.pulled != [] && f.pulled[|f.pulled| - 1] == t
         && |f.delivered| < |f.pulled|
         && (!closed ==> f.delivered + [t] == f.pulled)
       case Passed(t) => f.delivered + [t] == f.pulled
       case _ => !closed ==> f.delivered == f.pulled
  }
}
