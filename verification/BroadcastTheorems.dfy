/** What the broadcast protocol promises in every reachable world and over every run. */
module BroadcastTheorems {
  import opened Wrappers
  import Runs
  import opened Sequences
  import opened Flv
  import opened TagCache
  import opened LateJoin
  import opened Subscriber
  import opened Broadcast
  import opened BroadcastInvariant

  lemma ValuesAreKeys(w: World)
    requires RegistryInv(w)
    ensures forall o :: o in w.subs.Values ==> o in w.subs
  {
    forall o | o in w.subs.Values ensures o in w.subs {
      var k :| k in w.subs && w.subs[k] == o;
    }
  }

  /** A run extended by one step. */
  lemma Then(v: Variant, acts: seq<Act>, a: Act) returns (more: seq<Act>)
    requires Exec(v, INITIAL, acts).Some?
    ensures more == acts + [a] && Exec(v, INITIAL, more) == Next(v, Exec(v, INITIAL, acts).value, a)
  {
    more := Runs.Then(Steps(v), INITIAL, acts, a);
  }

  // ---------------------------------------------------------------- the queue

  /** Bounded queue conservation, for every interleaving. Each dropped tag started a `Close` call. The
      branch of the sender for a closed queue is never taken, because no step closes a queue. */
  lemma {:induction false} QueueConservation(v: Variant, acts: seq<Act>, o: nat)
    requires Exec(v, INITIAL, acts).Some? && o < |Exec(v, INITIAL, acts).value.objs|
    ensures var w := Exec(v, INITIAL, acts).value;
      var f := w.objs[o].feed;
      && |f.queue| <= 1200
      && f.pulled + f.queue == f.accepted
      && Subseq(f.accepted, f.submitted)
      && |f.submitted| - |f.accepted| <= |w.objs[o].shut.calls|
      && (f.accepted != f.submitted ==> w.objs[o].shut.calls != [] && |f.accepted| >= f.intact >= 1200)
      && Next(v, w, Local(o, ClosedQueue)).None?
  {
    ReachableInv(v, acts);
    assert SubInv(v, Exec(v, INITIAL, acts).value, o);
    var f := Exec(v, INITIAL, acts).value.objs[o].feed;
    if |f.accepted| == |f.submitted| {
      assert f.accepted == f.accepted[..f.intact] == f.submitted[..f.intact] == f.submitted;
    }
  }

  // ---------------------------------------------------------------- closing

  /** `Close` under any number of interleaved callers. */
  lemma {:induction false} CloseExactlyOnce(v: Variant, acts: seq<Act>, o: nat)
    requires Exec(v, INITIAL, acts).Some? && o < |Exec(v, INITIAL, acts).value.objs|
    ensures var w := Exec(v, INITIAL, acts).value;
      var s := w.objs[o].shut;
      && s.connCloses <= 1 && s.chanCloses <= 1
      && (s.returned != [] ==>
            && s.closed
            && s.connCloses == (if s.hadConn then 1 else 0)
            && s.chanCloses == 1 && s.chanCloser == Some(s.returned[0]))
      && (s.closed && s.locker.None? ==> o !in w.subs.Values)
      && (forall c, d | 0 <= c < |s.calls| && 0 <= d < |s.calls| ::
            InSection(s.calls[c]) && InSection(s.calls[d]) ==> c == d)
  {
    ReachableInv(v, acts);
    var w := Exec(v, INITIAL, acts).value;
    assert SubInv(v, w, o);
    var s := w.objs[o].shut;
    ValuesAreKeys(w);
    if s.returned != [] {
      assert s.returned[0] in s.returned;
      assert s.entered[0] == s.returned[0];
      assert CallInv(s, o in w.subs, s.returned[0]);
    }
    forall c, d | 0 <= c < |s.calls| && 0 <= d < |s.calls| && InSection(s.calls[c]) && InSection(s.calls[d])
      ensures c == d
    {
      assert CallInv(s, o in w.subs, c) && CallInv(s, o in w.subs, d);
    }
  }

  /** How a subscriber may change: closed stays closed, unregistered stays unregistered, histories only
      grow, and once closed at most the callback already past its check still starts. */
  predicate Evolves(w: World, w': World, o: nat) {
    o < |w.objs| ==>
      && o < |w'.objs|
      && var s, s' := w.objs[o], w'.objs[o];
      && s'.subID == s.subID && s'.shut.hadConn == s.shut.hadConn
      && (s.shut.closed ==>
            && s'.shut.closed
            && |s'.feed.delivered| + Pending(s'.sender) <= |s.feed.delivered| + Pending(s.sender))
      && (o !in w.subs ==> o !in w'.subs)
      && s.feed.submitted <= s'.feed.submitted
      && s.feed.accepted <= s'.feed.accepted
      && s.feed.pulled <= s'.feed.pulled
      && s.feed.delivered <= s'.feed.delivered
      && (s.trigger.Some? ==> s'.trigger == s.trigger)
  }

  lemma LocalEvolves(s: Sub, l: LocalAct)
    requires DoLocal(s, l).Some?
    ensures var s' := DoLocal(s, l).value;
      && s'.subID == s.subID && s'.trigger == s.trigger && s'.shut.hadConn == s.shut.hadConn
      && (s.shut.closed ==>
            && s'.shut.closed
            && |s'.feed.delivered| + Pending(s'.sender) <= |s.feed.delivered| + Pending(s.sender))
      && s.feed.submitted <= s'.feed.submitted
      && s.feed.accepted <= s'.feed.accepted
      && s.feed.pulled <= s'.feed.pulled
      && s.feed.delivered <= s'.feed.delivered
  {
  }

  lemma StepEvolves(v: Variant, w: World, a: Act, o: nat)
    requires RegistryInv(w) && Next(v, w, a).Some?
    ensures Evolves(w, Next(v, w, a).value, o)
  {
    if o < |w.objs| {
      if a.Local? {
        LocalEvolves(w.objs[a.o], a.local);
      } else if a.StepClose? {
        StepCloseEvolves(w, a.o, a.c, o);
      }
    }
  }

  lemma StepCloseEvolves(w: World, x: nat, c: nat, o: nat)
    requires RegistryInv(w) && DoStepClose(w, x, c).Some?
    ensures Evolves(w, DoStepClose(w, x, c).value, o)
  {
    CloseStepGrows(w.objs[x].shut, c);
  }

  /** Over any continuation of any run. */
  lemma {:induction false} RunEvolves(v: Variant, acts: seq<Act>, more: seq<Act>, o: nat)
    requires Exec(v, INITIAL, acts).Some? && Exec(v, INITIAL, acts + more).Some?
    ensures Evolves(Exec(v, INITIAL, acts).value, Exec(v, INITIAL, acts + more).value, o)
    decreases |more|
  {
    if more == [] {
      assert acts + more == acts;
    } else {
      var front := more[..|more| - 1];
      assert (acts + more)[..|acts + more| - 1] == acts + front;
      RunEvolves(v, acts, front, o);
      ReachableInv(v, acts + front);
      StepEvolves(v, Exec(v, INITIAL, acts + front).value, more[|more| - 1], o);
    }
  }

  /** A closed subscriber with a free lock is gone from the registry for good. */
  lemma ClosedNeverRegisteredAgain(v: Variant, acts: seq<Act>, more: seq<Act>, o: nat)
    requires Exec(v, INITIAL, acts).Some? && Exec(v, INITIAL, acts + more).Some?
    requires var w := Exec(v, INITIAL, acts).value;
      o < |w.objs| && w.objs[o].shut.closed && w.objs[o].shut.locker.None?
    ensures o !in Exec(v, INITIAL, acts + more).value.subs.Values
  {
    ReachableInv(v, acts);
    assert SubInv(v, Exec(v, INITIAL, acts).value, o);
    RunEvolves(v, acts, more, o);
    ReachableInv(v, acts + more);
    var w := Exec(v, INITIAL, acts + more).value;
    ValuesAreKeys(w);
  }

  /** Once `closed` is set, a callback can still start exactly when the sender is past its check, and
      over any continuation that one is the last. */
  lemma CallbacksAfterClose(v: Variant, acts: seq<Act>, more: seq<Act>, o: nat)
    requires Exec(v, INITIAL, acts).Some? && Exec(v, INITIAL, acts + more).Some?
    requires var w := Exec(v, INITIAL, acts).value; o < |w.objs| && w.objs[o].shut.closed
    ensures var w, w' := Exec(v, INITIAL, acts).value, Exec(v, INITIAL, acts + more).value;
      var s := w.objs[o];
      && (Next(v, w, Local(o, CallBack)).Some? <==> Pending(s.sender) == 1)
      && o < |w'.objs|
      && s.feed.delivered <= w'.objs[o].feed.delivered
      && |w'.objs[o].feed.delivered| <= |s.feed.delivered| + Pending(s.sender)
  {
    RunEvolves(v, acts, more, o);
  }

  /** Whether the subscriber has received the same after `more` as before. */
  predicate NothingMore(v: Variant, acts: seq<Act>, more: seq<Act>, o: nat)
    requires Exec(v, INITIAL, acts).Some? && o < |Exec(v, INITIAL, acts).value.objs|
  {
    match Exec(v, INITIAL, acts + more)
    case None => true
    case Some(w) =>
      o < |w.objs| && w.objs[o].feed.delivered == Exec(v, INITIAL, acts).value.objs[o].feed.delivered
  }

  /** No callback starts after `closed` is set, on any continuation, exactly when the sender is not past
      its check. */
  lemma NoCallbackExactlyWhen(v: Variant, acts: seq<Act>, o: nat)
    requires Exec(v, INITIAL, acts).Some?
    requires var w := Exec(v, INITIAL, acts).value; o < |w.objs| && w.objs[o].shut.closed
    ensures (forall more :: NothingMore(v, acts, more, o)) <==> !Exec(v, INITIAL, acts).value.objs[o].sender.Passed?
  {
    var s := Exec(v, INITIAL, acts).value.objs[o];
    if s.sender.Passed? {
      var longer := Then(v, acts, Local(o, CallBack));
      assert !NothingMore(v, acts, [Local(o, CallBack)], o);
    } else {
      forall more ensures NothingMore(v, acts, more, o) {
        if Exec(v, INITIAL, acts + more).Some? {
          CallbacksAfterClose(v, acts, more, o);
        }
      }
    }
  }

  /** The window between the check and the callback is open: one can start after `closed` is set, even
      after the `Close` call has returned. */
  lemma CallbackStartsAfterClosed(v: Variant) returns (acts: seq<Act>)
    ensures Exec(v, INITIAL, acts).Some?
    ensures var w := Exec(v, INITIAL, acts).value;
      && |w.objs| == 1 && w.objs[0].shut.closed && w.objs[0].shut.calls == [Returned]
      && Next(v, w, Local(0, CallBack)).Some?
  {
    acts := OneTagQueued(v);
    acts := Then(v, acts, Local(0, PullTag));
    acts := Then(v, acts, Local(0, CheckClosed));
    acts := Then(v, acts, Local(0, StartClose));
    acts := CloseRuns(v, acts);
  }

  /** One subscriber, with a replayed key frame in its queue. */
  lemma OneTagQueued(v: Variant) returns (acts: seq<Act>)
    ensures Exec(v, INITIAL, acts).Some? && |Exec(v, INITIAL, acts).value.objs| == 1
    ensures var s := Exec(v, INITIAL, acts).value.objs[0];
      |s.feed.queue| == 1 && s.sender == Waiting && s.shut == NewShut(true)
  {
    var key := Tag(0, VideoData(KEY_FRAME, 1, []));
    KeyFrameAlone(v.r1, key);
    acts := Then(v, [], Register(true));
    assert Exec(v, INITIAL, acts).value.cache == EMPTY;
    acts := Then(v, acts, BeginPublish(key));
    acts := Then(v, acts, Visit(0));
    assert Exec(v, INITIAL, acts).value.phase.rest == [key];
    acts := Then(v, acts, SubmitNext);
  }

  lemma KeyFrameAlone(r1: bool, key: Tag)
    requires Marked(KeyFrame, key)
    ensures InitTags(Step(r1, EMPTY, key)) == [key]
  {
  }

  /** The only call of the only subscriber runs to its end. */
  lemma CloseRuns(v: Variant, acts: seq<Act>) returns (r: seq<Act>)
    requires Exec(v, INITIAL, acts).Some? && |Exec(v, INITIAL, acts).value.objs| == 1
    requires Exec(v, INITIAL, acts).value.objs[0].shut == Begin(NewShut(true))
    ensures Exec(v, INITIAL, r).Some? && |Exec(v, INITIAL, r).value.objs| == 1
    ensures var s, s' := Exec(v, INITIAL, acts).value.objs[0], Exec(v, INITIAL, r).value.objs[0];
      s'.sender == s.sender && s'.shut.closed && s'.shut.calls == [Returned]
  {
    r := Then(v, acts, StepClose(0, 0));
    r := Then(v, r, StepClose(0, 0));
    r := Then(v, r, StepClose(0, 0));
    r := Then(v, r, StepClose(0, 0));
    r := Then(v, r, StepClose(0, 0));
    r := Then(v, r, StepClose(0, 0));
    r := Then(v, r, StepClose(0, 0));
  }

  // ---------------------------------------------------------------- what subscribers receive

  /** How many callbacks precede the first overflow. */
  function Clean(f: Feed): nat {
    if f.intact < |f.delivered| then f.intact else |f.delivered|
  }

  /** Nothing was dropped, and nothing is on its way. */
  predicate Drained(s: Sub) {
    && |s.feed.accepted| == |s.feed.submitted| && s.feed.queue == []
    && !s.shut.closed && s.sender == Waiting
  }

  /** In every reachable world a subscriber is fed its stream: a prefix of it was submitted, the
      callbacks before the first overflow received a prefix of it, and a registered subscriber has been
      submitted all of it whenever no publication is under way, and has received all of it once drained. */
  lemma {:induction false} FeedIsStream(v: Variant, acts: seq<Act>, o: nat)
    requires Exec(v, INITIAL, acts).Some? && o < |Exec(v, INITIAL, acts).value.objs|
    ensures var w := Exec(v, INITIAL, acts).value;
      var s := w.objs[o];
      match s.trigger
      case None => s.feed.submitted == [] && s.feed.delivered == []
      case Some(i) =>
        && i < s.upto <= |w.log|
        && s.feed.submitted <= Stream(v.r1, w.log, i, s.upto)
        && s.feed.delivered[..Clean(s.feed)] <= Stream(v.r1, w.log, i, s.upto)
        && (o in w.subs.Values && w.phase.Quiet? ==> s.feed.submitted == Stream(v.r1, w.log, i, |w.log|))
        && (o in w.subs.Values && w.phase.Quiet? && Drained(s) ==>
              s.feed.delivered == Stream(v.r1, w.log, i, |w.log|))
  {
    ReachableInv(v, acts);
    var w := Exec(v, INITIAL, acts).value;
    assert SubInv(v, w, o);
    var f := w.objs[o].feed;
    CleanIsPrefix(f, w.objs[o]);
    if Drained(w.objs[o]) {
      DrainedHasAll(w.objs[o]);
    }
    ValuesAreKeys(w);
    assert f.submitted + [] == f.submitted;
  }

  lemma DrainedHasAll(s: Sub)
    requires FeedInv(s.feed) && SenderInv(s.feed, s.shut.closed, s.sender) && Drained(s)
    ensures s.feed.delivered == s.feed.submitted
  {
    var f := s.feed;
    assert f.pulled + f.queue == f.pulled;
    assert f.accepted[..f.intact] == f.accepted && f.submitted[..f.intact] == f.submitted;
  }

  lemma CleanIsPrefix(f: Feed, s: Sub)
    requires f == s.feed && FeedInv(f) && SenderInv(f, s.shut.closed, s.sender)
    ensures f.delivered[..Clean(f)] <= f.submitted
    ensures |f.delivered| <= |f.submitted|
  {
    var n := Clean(f);
    assert f.delivered[..n] == f.pulled[..n] == f.accepted[..n] == f.accepted[..f.intact][..n] == f.submitted[..n];
  }

  /** Late-join equivalence on the callbacks before the first overflow: every one of them received the
      tag published at its source, or one of at most two replayed headers, in publication order. */
  lemma DeliveredIsLateJoin(v: Variant, acts: seq<Act>, o: nat, q: nat)
    requires Exec(v, INITIAL, acts).Some? && o < |Exec(v, INITIAL, acts).value.objs|
    requires q < Clean(Exec(v, INITIAL, acts).value.objs[o].feed)
    ensures var w := Exec(v, INITIAL, acts).value;
      var s := w.objs[o];
      && s.trigger.Some? && s.trigger.value < s.upto <= |w.log|
      && q < |Stream(v.r1, w.log, s.trigger.value, s.upto)|
      && s.feed.delivered[q] == Stream(v.r1, w.log, s.trigger.value, s.upto)[q]
      && CorrectlyPlaced(v.r1, w.log, s.trigger.value, s.upto, q)
      && (forall p :: 0 <= p < q ==> InOrder(v.r1, w.log, s.trigger.value, p, q))
  {
    FeedIsStream(v, acts, o);
    var w := Exec(v, INITIAL, acts).value;
    var s := w.objs[o];
    assert s.feed.delivered[..Clean(s.feed)][q] == s.feed.delivered[q];
    LateJoinEquivalence(v.r1, w.log, s.trigger.value, s.upto);
  }

  /** Decoder-configuration preservation on the callbacks before the first overflow, with its exact
      condition; under R1 the condition always holds. */
  lemma {:induction false} DeliveredConfiguration(v: Variant, acts: seq<Act>, o: nat, q: nat, track: Track)
    requires Exec(v, INITIAL, acts).Some? && o < |Exec(v, INITIAL, acts).value.objs|
    requires var w := Exec(v, INITIAL, acts).value;
      var s := w.objs[o];
      && q < Clean(s.feed) && s.trigger.Some? && s.trigger.value < |w.log|
      && track != Script && OnTrack(track, s.feed.delivered[q])
      && Source(v.r1, w.log, s.trigger.value, q).Some?
    ensures var w := Exec(v, INITIAL, acts).value;
      var s := w.objs[o];
      var j, m := Source(v.r1, w.log, s.trigger.value, q).value, HeaderOf(track);
      && j < |w.log| && s.feed.delivered[q] == w.log[j]
      && (v.r1 ==> ConfigurationCarried(v.r1, track, w.log, s.trigger.value, j))
      && (LastTag(m, s.feed.delivered[..q]) == LastTag(m, w.log[..j])
          <==> ConfigurationCarried(v.r1, track, w.log, s.trigger.value, j))
  {
    DeliveredIsLateJoin(v, acts, o, q);
    FeedIsStream(v, acts, o);
    var w := Exec(v, INITIAL, acts).value;
    var s := w.objs[o];
    var stream := Stream(v.r1, w.log, s.trigger.value, s.upto);
    assert s.feed.delivered[..q] == s.feed.delivered[..Clean(s.feed)][..q] == stream[..q];
    DecoderConfiguration(v.r1, track, w.log, s.trigger.value, s.upto, q);
  }

  /** Per-track order, even with overflow drops: on each track the callbacks receive a subsequence of
      what was published. */
  lemma DeliveredTrackOrder(v: Variant, acts: seq<Act>, o: nat, track: Track)
    requires Exec(v, INITIAL, acts).Some? && o < |Exec(v, INITIAL, acts).value.objs|
    ensures var w := Exec(v, INITIAL, acts).value;
      Subseq(Project(track, w.objs[o].feed.delivered), Project(track, w.log))
  {
    FeedIsStream(v, acts, o);
    QueueConservation(v, acts, o);
    ReachableInv(v, acts);
    var w := Exec(v, INITIAL, acts).value;
    assert SubInv(v, w, o);
    var s := w.objs[o];
    if s.trigger.Some? {
      var f, stream := s.feed, Stream(v.r1, w.log, s.trigger.value, s.upto);
      PrefixSubseq(f.delivered, f.pulled);
      PrefixSubseq(f.pulled, f.accepted);
      PrefixSubseq(f.submitted, stream);
      SubseqTrans(f.delivered, f.pulled, f.accepted);
      SubseqTrans(f.delivered, f.accepted, f.submitted);
      SubseqTrans(f.delivered, f.submitted, stream);
      ProjectSubseq(track, f.delivered, stream);
      TrackOrder(v.r1, track, w.log, s.trigger.value, s.upto);
      SubseqTrans(Project(track, f.delivered), Project(track, stream), Project(track, w.log[..s.upto]));
      PrefixSubseq(w.log[..s.upto], w.log);
      ProjectSubseq(track, w.log[..s.upto], w.log);
      SubseqTrans(Project(track, f.delivered), Project(track, w.log[..s.upto]), Project(track, w.log));
    }
  }

  /** In positions: the callbacks of a track are published tags of it at strictly increasing places, so
      none is repeated and none overtakes another. */
  lemma DeliveredTrackPositions(v: Variant, acts: seq<Act>, o: nat, track: Track) returns (at: seq<nat>)
    requires Exec(v, INITIAL, acts).Some? && o < |Exec(v, INITIAL, acts).value.objs|
    ensures var w := Exec(v, INITIAL, acts).value;
      var got, published := Project(track, w.objs[o].feed.delivered), Project(track, w.log);
      && |at| == |got|
      && (forall i :: 0 <= i < |at| ==> at[i] < |published| && published[at[i]] == got[i])
      && (forall i, j :: 0 <= i < j < |at| ==> at[i] < at[j])
  {
    DeliveredTrackOrder(v, acts, o, track);
    var w := Exec(v, INITIAL, acts).value;
    at := SubseqPositions(Project(track, w.objs[o].feed.delivered), Project(track, w.log));
  }

  lemma PrefixSubseq<T>(a: seq<T>, b: seq<T>)
    requires a <= b
    ensures Subseq(a, b)
  {
    assert a == b[0..|a|];
    SubseqOfSlice(b, 0, |a|);
  }

  // ---------------------------------------------------------------- deregistration

  /** When a closer goroutine has ended under R2, every subscriber registered at its deregistration is
      closed, and none of them is registered. As written it never turns to any of them. */
  lemma DeregistrationComplete(v: Variant, acts: seq<Act>, g: nat)
    requires Exec(v, INITIAL, acts).Some? && g < |Exec(v, INITIAL, acts).value.closers|
    ensures var w := Exec(v, INITIAL, acts).value;
      var x := w.closers[g];
      && (forall o :: o in x.snapshot ==> o < |w.objs| && o !in w.subs.Values)
      && (v.r2 && x.ended ==> forall o :: o in x.snapshot ==> w.objs[o].shut.closed)
      && (!v.r2 ==> x.done !! x.snapshot)
  {
    ReachableInv(v, acts);
    var w := Exec(v, INITIAL, acts).value;
    var x := w.closers[g];
    assert CloserInv(v, w, x);
    ValuesAreKeys(w);
  }

  /** The subscriber is registered only because the `Close` call that marked it closed has not
      unregistered it yet. */
  predicate BeingRemoved(w: World, o: nat) {
    o < |w.objs| && exists c :: 0 <= c < |w.objs[o].shut.calls| && w.objs[o].shut.calls[c] == MarkedClosed
  }

  lemma ClosedWhileRegistered(v: Variant, acts: seq<Act>, o: nat)
    requires Exec(v, INITIAL, acts).Some? && o in Exec(v, INITIAL, acts).value.subs.Values
    ensures var w := Exec(v, INITIAL, acts).value;
      o < |w.objs| && (w.objs[o].shut.closed <==> BeingRemoved(w, o))
  {
    ReachableInv(v, acts);
    var w := Exec(v, INITIAL, acts).value;
    ValuesAreKeys(w);
    assert SubInv(v, w, o);
    var s := w.objs[o].shut;
    if BeingRemoved(w, o) {
      var c :| 0 <= c < |s.calls| && s.calls[c] == MarkedClosed;
      assert CallInv(s, true, c);
    }
  }

  /** After a deregistration and `more`, its closer goroutine has not ended, or every subscriber it was
      to close is closed. */
  predicate Completes(v: Variant, acts: seq<Act>, more: seq<Act>, g: nat) {
    match Exec(v, INITIAL, acts + [Deregister] + more)
    case None => true
    case Some(w) =>
      g < |w.closers| && w.closers[g].ended ==>
        forall o :: o in w.closers[g].snapshot ==> o < |w.objs| && w.objs[o].shut.closed
  }

  /** Closer goroutines and their snapshots stay over any continuation. */
  lemma {:induction false} SnapshotStays(v: Variant, acts: seq<Act>, more: seq<Act>, g: nat)
    requires Exec(v, INITIAL, acts).Some? && Exec(v, INITIAL, acts + more).Some?
    requires g < |Exec(v, INITIAL, acts).value.closers|
    ensures var w, w' := Exec(v, INITIAL, acts).value, Exec(v, INITIAL, acts + more).value;
      g < |w'.closers| && w'.closers[g].snapshot == w.closers[g].snapshot
    decreases |more|
  {
    if more == [] {
      assert acts + more == acts;
    } else {
      var front := more[..|more| - 1];
      assert (acts + more)[..|acts + more| - 1] == acts + front;
      SnapshotStays(v, acts, front, g);
      ClosersStay(v, Exec(v, INITIAL, acts + front).value, more[|more| - 1], g);
    }
  }

  lemma ClosersStay(v: Variant, w: World, a: Act, g: nat)
    requires Next(v, w, a).Some? && g < |w.closers|
    ensures var w' := Next(v, w, a).value;
      g < |w'.closers| && w'.closers[g].snapshot == w.closers[g].snapshot
  {
  }

  /** As written, a deregistration is complete on every continuation exactly when every subscriber it
      unregisters was being removed by its own `Close` already; when no such call is under way, exactly
      when nobody was registered. */
  lemma DeregistrationAsWrittenExactlyWhen(v: Variant, acts: seq<Act>)
    requires !v.r2 && Exec(v, INITIAL, acts).Some?
    ensures var w := Exec(v, INITIAL, acts).value;
      && ((forall more :: Completes(v, acts, more, |w.closers|))
          <==> forall o :: o in w.subs.Values ==> BeingRemoved(w, o))
      && ((forall o :: 0 <= o < |w.objs| ==> !BeingRemoved(w, o)) ==>
            ((forall more :: Completes(v, acts, more, |w.closers|)) <==> w.subs == map[]))
  {
    var w := Exec(v, INITIAL, acts).value;
    var g := |w.closers|;
    ReachableInv(v, acts);
    ValuesAreKeys(w);
    if forall o :: o in w.subs.Values ==> BeingRemoved(w, o) {
      forall more ensures Completes(v, acts, more, g) {
        if Exec(v, INITIAL, acts + [Deregister] + more).Some? {
          ClosedStayClosed(v, acts, more);
        }
      }
    }
    if forall more :: Completes(v, acts, more, g) {
      assert Completes(v, acts, [CloserEnds(g)], g);
      EndsAtOnce(v, acts);
      forall o | o in w.subs.Values ensures BeingRemoved(w, o) {
        ClosedWhileRegistered(v, acts, o);
      }
    }
    assert forall k :: k in w.subs ==> w.subs[k] in w.subs.Values;
  }

  lemma ClosedStayClosed(v: Variant, acts: seq<Act>, more: seq<Act>)
    requires Exec(v, INITIAL, acts).Some? && Exec(v, INITIAL, acts + [Deregister] + more).Some?
    requires var w := Exec(v, INITIAL, acts).value; forall o :: o in w.subs.Values ==> BeingRemoved(w, o)
    ensures Completes(v, acts, more, |Exec(v, INITIAL, acts).value.closers|)
  {
    var w := Exec(v, INITIAL, acts).value;
    var gone := Then(v, acts, Deregister);
    SnapshotStays(v, acts + [Deregister], more, |w.closers|);
    ConcatAssoc(acts, [Deregister], more);
    forall o | o in w.subs.Values
      ensures var w' := Exec(v, INITIAL, acts + [Deregister] + more).value; o < |w'.objs| && w'.objs[o].shut.closed
    {
      ClosedWhileRegistered(v, acts, o);
      RunEvolves(v, acts, [Deregister] + more, o);
    }
  }

  /** As written the goroutine may find nobody to turn to and end at once. */
  lemma EndsAtOnce(v: Variant, acts: seq<Act>)
    requires !v.r2 && Exec(v, INITIAL, acts).Some?
    ensures var w := Exec(v, INITIAL, acts).value;
      var after := Exec(v, INITIAL, acts + [Deregister] + [CloserEnds(|w.closers|)]);
      && after.Some? && |after.value.closers| == |w.closers| + 1 && after.value.objs == w.objs
      && after.value.closers[|w.closers|].ended && after.value.closers[|w.closers|].snapshot == w.subs.Values
  {
    var w := Exec(v, INITIAL, acts).value;
    var gone := Then(v, acts, Deregister);
    var ended := Then(v, gone, CloserEnds(|w.closers|));
  }

  /** As written the goroutine can end while the one subscriber it was to close is still open. */
  lemma DeregistrationIncompleteAsWritten() returns (acts: seq<Act>)
    ensures var v := Variant(false, false);
      && Exec(v, INITIAL, acts).Some?
      && var w := Exec(v, INITIAL, acts).value;
      && |w.closers| == 1 && w.closers[0].ended && 0 in w.closers[0].snapshot
      && |w.objs| == 1 && !w.objs[0].shut.closed
  {
    var v := Variant(false, false);
    acts := Then(v, [], Register(true));
    var w1 := Exec(v, INITIAL, acts).value;
    assert w1.subs[0] == 0 && 0 in w1.subs.Values;
    acts := Then(v, acts, Deregister);
    acts := Then(v, acts, CloserEnds(0));
  }

  /** Registry keys are subscriber numbers, below every key still to be given out: removing a
      subscriber's key never removes another subscriber. */
  lemma KeysIdentifySubscribers(v: Variant, acts: seq<Act>, k: nat)
    requires Exec(v, INITIAL, acts).Some? && k in Exec(v, INITIAL, acts).value.subs
    ensures var w := Exec(v, INITIAL, acts).value;
      && k < w.nextSubID && w.subs[k] < |w.objs| && w.objs[w.subs[k]].subID == k
      && (forall o :: 0 <= o < |w.objs| && w.objs[o].subID == k ==> o == w.subs[k])
  {
    ReachableInv(v, acts);
    var w := Exec(v, INITIAL, acts).value;
    forall o | 0 <= o < |w.objs| ensures w.objs[o].subID == o {
      assert SubInv(v, w, o);
    }
  }
}
