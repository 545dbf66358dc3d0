/** What submitting several tags, a pass of the sender, and an uninterrupted `Close` come to. */
module SubscriberRuns {
  import opened Wrappers
  import opened Flv
  import opened Subscriber

  function SubmitAll(f: Feed, tags: seq<Tag>): Feed {
    if tags == [] then f else Submit(SubmitAll(f, tags[..|tags| - 1]), tags[|tags| - 1])
  }

  /** The `Close` calls that submitting starts: one for each tag that finds the queue full. */
  function Overflows(f: Feed, tags: seq<Tag>): nat {
    if tags == [] then 0
    else
      var front := tags[..|tags| - 1];
      Overflows(f, front) + if Full(SubmitAll(f, front)) then 1 else 0
  }

  /** That many `Close` calls begun. */
  function BeginMany(s: Shut, n: nat): Shut {
    if n == 0 then s else Begin(BeginMany(s, n - 1))
  }

  /** With nobody pulling, exactly the first tags that fit are accepted, and each other one overflows. */
  lemma {:induction false} SubmitAllFillsUp(f: Feed, tags: seq<Tag>, room: nat)
    requires |f.queue| + room == QUEUE_LENGTH
    ensures SubmitAll(f, tags).submitted == f.submitted + tags
    ensures |tags| <= room ==>
              && SubmitAll(f, tags).queue == f.queue + tags
              && SubmitAll(f, tags).accepted == f.accepted + tags
              && Overflows(f, tags) == 0
    ensures |tags| > room ==>
              && SubmitAll(f, tags).queue == f.queue + tags[..room]
              && SubmitAll(f, tags).accepted == f.accepted + tags[..room]
              && Overflows(f, tags) == |tags| - room
  {
    if tags == [] {
      assert f.queue + tags == f.queue && f.accepted + tags == f.accepted && f.submitted + tags == f.submitted;
    } else {
      var front, t := tags[..|tags| - 1], tags[|tags| - 1];
      SubmitAllFillsUp(f, front, room);
      assert f.submitted + front + [t] == f.submitted + tags;
      if |tags| <= room {
        assert f.queue + front + [t] == f.queue + tags && f.accepted + front + [t] == f.accepted + tags;
      } else if |front| == room {
        assert front == tags[..room];
      } else {
        assert front[..room] == tags[..room];
      }
    }
  }

  /** A `Close` call running by itself until it returns or waits for the lock. */
  function RunCall(s: Shut, c: nat): Shut
    requires c < |s.calls|
    decreases 7 - Rank(s.calls[c])
  {
    if CanClose(s, c) then RunCall(CloseStep(s, c), c) else s
  }

  /** What a `Close` call does to a subscriber whose lock is free: the call is over; connection and
      channel are closed, each by this call unless an earlier one did it. */
  function SoloClose(s: Shut): Shut {
    s.(conn := false, cancelled := true, chanClosed := true, closed := true,
       calls := s.calls + [Returned],
       entered := s.entered + [|s.calls|], returned := s.returned + [|s.calls|],
       connCloses := if s.conn then s.connCloses + 1 else s.connCloses,
       chanCloses := if s.chanClosed then s.chanCloses else s.chanCloses + 1,
       chanCloser := if s.chanClosed then s.chanCloser else Some(|s.calls|))
  }

  /** The two halves of its critical section. */
  function BothClosed(s: Shut, c: nat): Shut
    requires c < |s.calls|
  {
    s.(locker := Some(c), entered := s.entered + [c], conn := false, chanClosed := true,
       connCloses := if s.conn then s.connCloses + 1 else s.connCloses,
       chanCloses := if s.chanClosed then s.chanCloses else s.chanCloses + 1,
       chanCloser := if s.chanClosed then s.chanCloser else Some(c),
       calls := s.calls[c := ChanDone])
  }

  function Left(s: Shut, c: nat): Shut
    requires c < |s.calls|
  {
    s.(closed := true, locker := None, returned := s.returned + [c], calls := s.calls[c := Returned])
  }

  /** What it does when another call holds the lock: it cancels the sender and waits. */
  function BlockedClose(s: Shut): Shut {
    s.(cancelled := true, calls := s.calls + [Cancelled])
  }

  lemma BlockedCloseIsRun(s: Shut)
    requires s.locker.Some?
    ensures RunCall(Begin(s), |s.calls|) == BlockedClose(s)
  {
    assert CloseStep(Begin(s), |s.calls|).calls == s.calls + [Cancelled];
  }

  /** The steps of the call, run one after the other, come to the same. */
  lemma SoloCloseIsRun(s: Shut)
    requires s.locker.None?
    ensures RunCall(Begin(s), |s.calls|) == SoloClose(s)
  {
    var c := |s.calls|;
    var locked := CloseStep(CloseStep(Begin(s), c), c);
    assert RunCall(Begin(s), c) == RunCall(locked, c);
    assert locked.calls == s.calls + [Locked];
    var through := CloseStep(CloseStep(locked, c), c);
    assert RunCall(locked, c) == RunCall(through, c);
    assert through.calls == s.calls + [ChanDone];
    RunFromCheck(through, c);
    assert s.calls + [Returned] == through.calls[c := Returned];
  }

  lemma RunFromCheck(s: Shut, c: nat)
    requires c < |s.calls| && s.calls[c] == ChanDone && s.locker == Some(c)
    ensures RunCall(s, c) == Left(s, c)
  {
    var checked := CloseStep(s, c);
    var leaving := if s.closed then checked else CloseStep(checked, c);
    assert RunCall(s, c) == RunCall(leaving, c);
    assert leaving.calls == s.calls[c := Leaving];
    assert RunCall(leaving, c) == CloseStep(leaving, c);
  }

  lemma SubmitAllSnoc(f: Feed, tags: seq<Tag>, t: Tag)
    ensures SubmitAll(f, tags + [t]) == Submit(SubmitAll(f, tags), t)
    ensures Overflows(f, tags + [t]) == Overflows(f, tags) + if Full(SubmitAll(f, tags)) then 1 else 0
  {
    assert (tags + [t])[..|tags + [t]| - 1] == tags;
  }

  /** What one pass of the sender does with the front of the queue. */
  function Passing(f: Feed, closed: bool): Feed
    requires f.queue != []
  {
    var p := Pull(f);
    if closed then p else p.(delivered := p.delivered + [f.queue[0]])
  }

  /** What one publication submits to a subscriber: the tag, or else the replay. */
  function Due(initDone: bool, replay: seq<Tag>, t: Tag): seq<Tag> {
    if initDone then [t] else replay
  }
}
