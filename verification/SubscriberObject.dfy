/**
 A subscriber as an object: its queue of tag views, its sender and the steps of its `Close`, proved against
 the pure steps of module `Subscriber` in any state.
 */
module SubscriberObject {
  import opened Views
  import opened Publisher
  import opened Subscriber
  import opened SubscriberRuns

  class Sub {
    const subID: nat
    var connCloser: bool
    var sendQueue: seq<FlvTag>
    var initDone: bool
    var cancelled: bool
    var closedChanClosed: bool
    var closed: bool
    /** Whether a `Close` call holds the lock. */
    var locked: bool

    ghost var feed: Feed
    ghost var shut: Shut
    ghost var sender: Sender

    ghost predicate Valid()
      reads this
    {
      && AllMade(sendQueue) == feed.queue && |sendQueue| == |feed.queue|
      && shut.conn == connCloser && shut.cancelled == cancelled
      && shut.chanClosed == closedChanClosed && shut.closed == closed && shut.locker.Some? == locked
    }

    constructor (subID: nat, connCloser: bool)
      ensures Valid() && this.subID == subID && !initDone && feed == NO_FEED && shut == NewShut(connCloser)
      ensures sender == Sender.Waiting
    {
      this.subID, this.connCloser, sendQueue := subID, connCloser, [];
      initDone, cancelled, closedChanClosed, closed, locked := false, false, false, false, false;
      feed, shut, sender := NO_FEED, NewShut(connCloser), Sender.Waiting;
    }

    /** Enqueue, or start a `Close` when the queue is full. */
    method Submit(flv: FlvTag) returns (startClose: bool)
      requires Valid()
      modifies this`sendQueue, this`feed, this`shut
      ensures Valid() && feed == Subscriber.Submit(old(feed), flv.made)
      ensures startClose == Full(old(feed))
      ensures shut == if startClose then Begin(old(shut)) else old(shut)
      ensures sendQueue == if startClose then old(sendQueue) else old(sendQueue) + [flv]
    {
      if |sendQueue| < QUEUE_LENGTH {
        AllMadeSnoc(sendQueue, flv);
        sendQueue := sendQueue + [flv];
        startClose := false;
      } else {
        shut := Begin(shut);
        startClose := true;
      }
      feed := Subscriber.Submit(feed, flv.made);
    }

    /** The first half under the lock: the connection, then the channel. */
    method CloseBoth(ghost c: nat)
      requires At(c, Cancelled) && !locked
      modifies this`connCloser, this`closedChanClosed, this`locked, this`shut
      ensures Valid() && locked && closedChanClosed && !connCloser && shut == BothClosed(old(shut), c)
    {
      Lock(c);
      CloseConn(c);
      CloseChan(c);
      assert shut.calls == old(shut).calls[c := ChanDone];
    }

    ghost method BeginClose()
      requires Valid()
      modifies this`shut
      ensures Valid() && shut == Begin(old(shut))
    {
      shut := Begin(shut);
    }

    ghost predicate At(c: nat, pc: ClosePc)
      reads this
    {
      Valid() && c < |shut.calls| && shut.calls[c] == pc
    }

    method Cancel(ghost c: nat)
      requires At(c, Begun)
      modifies this`cancelled, this`shut
      ensures Valid() && shut == CloseStep(old(shut), c)
    {
      cancelled := true;
      shut := CloseStep(shut, c);
    }

    method Lock(ghost c: nat)
      requires At(c, Cancelled) && !locked
      modifies this`locked, this`shut
      ensures Valid() && shut == CloseStep(old(shut), c)
    {
      locked := true;
      shut := CloseStep(shut, c);
    }

    method CloseConn(ghost c: nat)
      requires At(c, Locked)
      modifies this`connCloser, this`shut
      ensures Valid() && shut == CloseStep(old(shut), c)
    {
      if connCloser {
        connCloser := false;
      }
      shut := CloseStep(shut, c);
    }

    method CloseChan(ghost c: nat)
      requires At(c, ConnDone)
      modifies this`closedChanClosed, this`shut
      ensures Valid() && shut == CloseStep(old(shut), c)
    {
      if !closedChanClosed {
        closedChanClosed := true;
      }
      shut := CloseStep(shut, c);
    }

    method MarkClosed(ghost c: nat) returns (first: bool)
      requires At(c, ChanDone)
      modifies this`closed, this`shut
      ensures Valid() && shut == CloseStep(old(shut), c)
      ensures closed && first == !old(closed)
    {
      first := !closed;
      if first {
        closed := true;
      }
      shut := CloseStep(shut, c);
    }

    /** The step of the call that has its registration removed. */
    ghost method Unregistered(c: nat)
      requires At(c, MarkedClosed)
      modifies this`shut
      ensures Valid() && shut == CloseStep(old(shut), c)
    {
      shut := CloseStep(shut, c);
    }

    method Unlock(ghost c: nat)
      requires At(c, Leaving)
      modifies this`locked, this`shut
      ensures Valid() && shut == CloseStep(old(shut), c)
    {
      locked := false;
      shut := CloseStep(shut, c);
    }

    /** One pass of the sender loop. `done` resolves the select when both the cancelled context and the
        queue are ready; with neither ready the loop waits. */
    method SenderPass(done: bool) returns (calledBack: bool)
      requires Valid() && sender == Sender.Waiting && (sendQueue != [] ==> sendQueue[0].Untouched())
      modifies this`sendQueue, this`feed, this`sender
      modifies if sendQueue == [] then null else sendQueue[0].Buf()
      ensures Valid() && shut == old(shut)
      ensures if old(cancelled && (done || sendQueue == [])) then
                sender == Ended && !calledBack && feed == old(feed) && sendQueue == old(sendQueue)
              else if old(sendQueue) == [] then
                sender == Sender.Waiting && !calledBack && feed == old(feed) && sendQueue == []
              else
                sender == Sender.Waiting && calledBack == !closed && feed == Passing(old(feed), closed)
                && sendQueue == old(sendQueue)[1..]
    {
      calledBack := false;
      if cancelled && (done || sendQueue == []) {
        sender := Ended;
      } else if sendQueue != [] {
        var tag := PullTag();
        calledBack := CheckClosed(tag);
        if calledBack {
          CallBack(tag);
          sender := Sender.Waiting;  // an error of the callback is only logged
        }
      }
    }

    method PullTag() returns (tag: FlvTag)
      requires Valid() && sender == Sender.Waiting && sendQueue != []
      modifies this`sendQueue, this`feed, this`sender
      ensures Valid() && tag == old(sendQueue)[0] && sendQueue == old(sendQueue)[1..]
      ensures feed == Pull(old(feed)) && sender == Holding(tag.made) && tag.made == old(feed).queue[0]
    {
      tag := sendQueue[0];
      AllMadeTail(sendQueue);
      sendQueue := sendQueue[1..];
      feed, sender := Pull(feed), Holding(tag.made);
    }

    /** The check of `onEvent`, without the lock. */
    method CheckClosed(tag: FlvTag) returns (passed: bool)
      requires Valid() && sender == Holding(tag.made)
      modifies this`sender
      ensures Valid() && passed == !closed && sender == if passed then Passed(tag.made) else Sender.Waiting
    {
      passed := !closed;
      sender := if closed then Sender.Waiting else Passed(tag.made);
    }

    /** The callback consumes the tag. */
    method CallBack(tag: FlvTag)
      requires Valid() && sender == Passed(tag.made) && tag.Untouched()
      modifies this`feed, this`sender, tag.Buf()
      ensures Valid() && sender == InCallback
      ensures feed == old(feed).(delivered := old(feed).delivered + [tag.made])
    {
      match tag.body {
        case ScriptBody(_) =>
        case AudioBody(_, b) => var all := b.Read(b.hi - b.off);
        case VideoBody(_, _, b) => var all := b.Read(b.hi - b.off);
      }
      feed, sender := feed.(delivered := feed.delivered + [tag.made]), InCallback;
    }
  }

  lemma AllMadeTail(tags: seq<FlvTag>)
    requires tags != []
    ensures |AllMade(tags)| == |tags|
    ensures AllMade(tags)[0] == tags[0].made && AllMade(tags)[1..] == AllMade(tags[1..])
  {
    AllMadeConcat([tags[0]], tags[1..]);
    assert [tags[0]] + tags[1..] == tags;
    AllMadeSnoc([], tags[0]);
    assert [] + [tags[0]] == [tags[0]];
    AllMadeLength(tags);
  }

  lemma {:induction false} AllMadeLength(tags: seq<FlvTag>)
    ensures |AllMade(tags)| == |tags|
  {
    if tags != [] {
      AllMadeLength(tags[..|tags| - 1]);
    }
  }
}
