/**
 The relay's objects, updated in place: subscribers, pubsubs, the relay service with its broadcast channel,
 and the connection handler driving them. Methods are proved against the pure steps of modules
 `Subscriber` and `Relay`; a method that the original runs without a lock around it is proved for the case
 that nothing interleaves.
 */
module PubSub {
  import opened Wrappers
  import opened Flv
  import opened Views
  import opened Publisher
  import opened Subscriber
  import opened SubscriberRuns
  import opened SubscriberObject
  import opened Publishing
  import R = Relay

  // ---------------------------------------------------------------- pubsubs

  class Pubsub {
    /** The number of this object among all pubsubs of the service. */
    ghost const number: nat
    const name: R.Key
    const srv: RelayService
    var publisherHandler: Handler?
    var nextSubID: nat
    var subs: map<nat, Sub>
    /** Every subscriber this pubsub ever created. */
    ghost var created: set<Sub>

    ghost predicate Valid()
      reads this
    {
      && (forall s :: s in created ==> s.subID < nextSubID)
      && (forall s, s' :: s in created && s' in created && s.subID == s'.subID ==> s == s')
      && (forall id :: id in subs ==> subs[id] in created && subs[id].subID == id)
    }

    constructor (srv: RelayService, name: R.Key, publisherHandler: Handler?, ghost number: nat)
      ensures Valid() && this.srv == srv && this.name == name && this.number == number
      ensures this.publisherHandler == publisherHandler && subs == map[] && created == {}
    {
      this.srv, this.name, this.number := srv, name, number;
      this.publisherHandler := publisherHandler;
      nextSubID, subs, created := 0, map[], {};
    }

    /** Pubsub.Sub */
    method NewSub(connCloser: bool) returns (sub: Sub)
      requires Valid()
      modifies this`nextSubID, this`subs, this`created
      ensures Valid() && fresh(sub) && sub.Valid() && sub.feed == NO_FEED && sub.shut == NewShut(connCloser)
      ensures !sub.initDone && sub.sender == Sender.Waiting
      ensures subs == old(subs)[sub.subID := sub] && sub.subID !in old(subs)
      ensures created == old(created) + {sub} && forall s :: s in old(created) ==> s.subID != sub.subID
    {
      sub := new Sub(nextSubID, connCloser);
      nextSubID := nextSubID + 1;
      subs := subs[sub.subID := sub];
      created := created + {sub};
    }

    /** Removes this subscriber's registration and, of the pubsub's subscribers, no other one's. */
    method RemoveSub(s: Sub)
      modifies this`subs
      ensures subs == old(subs) - {s.subID}
      ensures old(Valid()) ==> Valid()
      ensures old(Valid()) && s in created ==>
                forall t :: t in created ==> (t in subs.Values <==> t in old(subs).Values && t != s)
    {
      subs := subs - {s.subID};
      if old(Valid()) && s in created {
        forall t | t in created ensures t in subs.Values <==> t in old(subs).Values && t != s {
          if t in old(subs).Values && t != s {
            assert subs[t.subID] == t;
          }
        }
      }
    }

    /** Sub.Close, up to its return or to its wait for the lock, with nothing in between its steps; each
        step is proved for any state the other calls may have reached. */
    method CloseSub(s: Sub) returns (done: bool)
      requires s.Valid()
      modifies s`connCloser, s`cancelled, s`closedChanClosed, s`closed, s`locked, s`shut, this`subs
      ensures s.Valid() && s.cancelled && done == !old(s.locked)
      ensures s.shut == if done then SoloClose(old(s.shut)) else BlockedClose(old(s.shut))
      ensures done ==> s.closed && s.closedChanClosed && !s.connCloser
      ensures subs == if old(s.closed || s.locked) then old(subs) else old(subs) - {s.subID}
    {
      ghost var c := |s.shut.calls|;
      s.BeginClose();
      s.Cancel(c);
      if s.locked {
        return false;
      }
      s.CloseBoth(c);
      Leave(s, c);
      assert s.shut.calls == old(s.shut).calls + [Returned];
      done := true;
    }

    /** The second half under the lock: mark, unregister, give the lock back. */
    method Leave(s: Sub, ghost c: nat)
      requires s.At(c, ChanDone) && s.shut.locker == Some(c)
      modifies s`closed, s`locked, s`shut, this`subs
      ensures s.Valid() && s.closed && !s.locked && s.shut == Left(old(s.shut), c)
      ensures subs == if old(s.closed) then old(subs) else old(subs) - {s.subID}
    {
      var first := s.MarkClosed(c);
      if first {
        RemoveSub(s);
        s.Unregistered(c);
      }
      assert s.shut.calls == old(s.shut).calls[c := Leaving];
      s.Unlock(c);
      assert s.shut.calls == old(s.shut).calls[c := Returned];
    }

    /** deregister: empties the registry of subscribers, unregisters the pubsub and gives up the
        publisher's handler, whose connection is then closed. The goroutine that closes the subscribers
        is part of module `Broadcast` only. */
    method Deregister() returns (ok: bool, handler: Handler?)
      requires srv.Valid() && number < |srv.all| && srv.all[number] == this
      modifies this`subs, this`publisherHandler
      modifies srv`streams, srv`streamsChanged, srv`reg, srv`chans, srv.streamsChanged
      ensures srv.Valid() && srv.reg == R.RemoveBy(srv.r3, old(srv.reg), number)
      ensures old(srv.chans) <= srv.chans && fresh(srv.chans[|old(srv.chans)|..])
      ensures srv.streamsChanged == old(srv.streamsChanged) || fresh(srv.streamsChanged)
      ensures subs == map[] && publisherHandler == null && handler == old(publisherHandler)
      ensures ok == (srv.reg != old(srv.reg))
    {
      subs := map[];
      ok := false;
      if !srv.r3 || (name in srv.streams && srv.streams[name] == this) {
        ok := srv.removePubsub(name);
      }
      handler, publisherHandler := publisherHandler, null;
    }
  }

  /** Publish, with nothing registering, unregistering or pulling meanwhile: the cache first, then every
      registered subscriber, in any order. Each is submitted the replay or else the tag, and handed views
      over buffers of its own, which neither another subscriber nor the cache nor the published tag has. */
  method Publish(p: Pub, pb: Pubsub, flv: FlvTag)
    returns (ghost replay: seq<Tag>, ghost found: map<Sub, Found>, ghost given: map<Sub, set<Buffer>>,
             ghost all: set<Buffer>)
    requires p.Valid() && flv.Untouched() && forall sub :: sub in pb.subs.Values ==> sub.Valid()
    modifies p, p.arrays, pb.subs.Values
    ensures p.ReplayNow() == Some(replay) && p.log == old(p.log) + [flv.made]
    ensures given.Keys == pb.subs.Values && Separate(given, all)
    ensures forall sub :: sub in pb.subs.Values ==> sub in found && found[sub] == old(Find(sub))
    ensures forall sub :: sub in pb.subs.Values ==>
              sub.Valid() && Served(found[sub], Find(sub), replay, flv.made, given[sub])
    ensures Unmoved(all) && fresh(all) && all !! p.bufs && flv.Buf() !in all
  {
    ghost var subs, now := pb.subs.Values, map[];
    found := FindAll(subs);
    replay, now, given, all := PublishTo(p, pb.subs.Values, flv, found);
    AllDone(subs, found, now, given, all, replay, flv.made);
  }

  /** The closing half of a `Pub`. A publisher's end is broadcast by closing the channel handed out so
      far and installing a fresh one. */
  class Publication {
    const pb: Pubsub
    var closedChan: Chan

    constructor (pb: Pubsub)
      ensures this.pb == pb && fresh(closedChan) && !closedChan.closed
    {
      this.pb := pb;
      closedChan := new Chan();
    }

    /** Pub.Close: deregisters; then whoever waits on a channel handed out before is released, each
        channel being closed once, and later waiters wait for the next close. */
    method Close() returns (ok: bool)
      requires !closedChan.closed && pb.srv.Valid() && pb.number < |pb.srv.all| && pb.srv.all[pb.number] == pb
      requires closedChan != pb.srv.streamsChanged
      modifies this`closedChan, closedChan, pb`subs, pb`publisherHandler
      modifies pb.srv`streams, pb.srv`streamsChanged, pb.srv`reg, pb.srv`chans, pb.srv.streamsChanged
      ensures pb.srv.reg == R.RemoveBy(pb.srv.r3, old(pb.srv.reg), pb.number) && pb.subs == map[]
      ensures old(closedChan).closed && fresh(closedChan) && !closedChan.closed
    {
      var handler;
      ok, handler := pb.Deregister();
      var oldChan := closedChan;
      closedChan := new Chan();
      oldChan.closed := true;
    }
  }

  // ---------------------------------------------------------------- the relay service

  /** A channel used only for its closing. */
  class Chan {
    var closed: bool

    constructor ()
      ensures !closed
    {
      closed := false;
    }
  }

  class RelayService {
    const r3: bool
    var streams: map<R.Key, Pubsub>
    var streamsChanged: Chan

    /** Every pubsub and every channel so far, and the registry they make up. */
    ghost var all: seq<Pubsub>
    ghost var chans: seq<Chan>
    ghost var reg: R.Registry

    ghost predicate Valid()
      reads this, chans
    {
      && R.RegistryInv(reg)
      && |all| == |reg.names|
      && (forall p :: 0 <= p < |all| ==> all[p].number == p && all[p].name == reg.names[p] && all[p].srv == this)
      && streams.Keys == reg.streams.Keys
      && (forall k :: k in streams ==> streams[k] == all[reg.streams[k]])
      && |chans| == |reg.closes| && streamsChanged == chans[reg.channel]
      && (forall c :: 0 <= c < |chans| ==> (chans[c].closed <==> reg.closes[c] > 0))
    }

    constructor (r3: bool)
      ensures Valid() && this.r3 == r3 && reg == R.EMPTY && all == [] && fresh(chans)
    {
      this.r3 := r3;
      streams, all, reg := map[], [], R.EMPTY;
      var ch := new Chan();
      streamsChanged, chans := ch, [ch];
    }

    /** Install a fresh channel, then close the old one, which is always open. */
    method Rotate()
      requires chans != [] && streamsChanged == chans[|chans| - 1] && !streamsChanged.closed
      modifies this`streamsChanged, this`chans, streamsChanged
      ensures old(streamsChanged).closed && fresh(streamsChanged) && !streamsChanged.closed
      ensures chans == old(chans) + [streamsChanged]
    {
      var oldCh := streamsChanged;
      streamsChanged := new Chan();
      chans := chans + [streamsChanged];
      oldCh.closed := true;
    }

    method removePubsub(key: R.Key) returns (ok: bool)
      requires Valid()
      modifies this`streams, this`streamsChanged, this`reg, this`chans, streamsChanged
      ensures Valid() && reg == R.Remove(old(reg), key)
      ensures old(chans) <= chans && fresh(chans[|old(chans)|..])
      ensures streamsChanged == old(streamsChanged) || fresh(streamsChanged)
      ensures ok == old(key in streams)
    {
      if key !in streams {
        return false;
      }
      R.RemoveChanges(reg, key);
      streams := streams - {key};
      Rotate();
      reg := R.Remove(reg, key);
      ok := true;
    }

    method NewPubsub(key: R.Key, publisherHandler: Handler?) returns (pubsub: Pubsub)
      requires Valid()
      modifies this, streamsChanged, all
      ensures Valid() && all == old(all) + [pubsub] && key in streams && streams[key] == pubsub
      ensures reg == R.Install(R.Remove(old(reg), key), key)
      ensures fresh(pubsub) && pubsub.Valid() && pubsub.publisherHandler == publisherHandler
      ensures old(chans) <= chans && fresh(chans[|old(chans)|..])
    {
      if key in streams {
        var oldStream := streams[key];
        var ok, handler := oldStream.Deregister();
      }
      pubsub := Install(key, publisherHandler);
    }

    /** The half of `NewPubsub` after the deregistration. */
    method Install(key: R.Key, publisherHandler: Handler?) returns (pubsub: Pubsub)
      requires Valid()
      modifies this, streamsChanged
      ensures Valid() && all == old(all) + [pubsub] && key in streams && streams[key] == pubsub
      ensures reg == R.Install(old(reg), key)
      ensures fresh(pubsub) && pubsub.Valid() && pubsub.publisherHandler == publisherHandler
      ensures old(chans) <= chans && fresh(chans[|old(chans)|..])
    {
      pubsub := new Pubsub(this, key, publisherHandler, |all|);
      R.InstallChanges(reg, key);
      streams := streams[key := pubsub];
      Rotate();
      all := all + [pubsub];
      reg := R.Install(reg, key);
    }

    method GetPubsub(key: R.Key) returns (pubsub: Pubsub?)
      requires Valid()
      ensures pubsub == null <==> R.Get(reg, key) == None
      ensures pubsub != null ==> R.Get(reg, key) == Some(pubsub.number) && pubsub.name == key && pubsub in all
    {
      pubsub := if key in streams then streams[key] else null;
    }

    /** One pass of the loop of `WaitPubsub` up to its select: the pubsub to return, or the channel to
        wait for. */
    method PollPubsub(key: R.Key, curPubsub: Pubsub?) returns (pubsub: Pubsub?, waitCh: Chan)
      requires Valid() && (curPubsub != null ==> curPubsub in all)
      ensures waitCh == streamsChanged && !waitCh.closed
      ensures var cur := if curPubsub == null then None else Some(curPubsub.number);
        R.PollOnce(reg, R.Waiter(key, true, R.Looping, cur, 0)).pc
        == if pubsub != null then R.Done(pubsub.number) else R.Blocked(reg.channel)
    {
      pubsub := if key in streams then streams[key] else null;
      waitCh := streamsChanged;
      if pubsub == curPubsub {
        pubsub := null;
      }
    }
  }

  // ---------------------------------------------------------------- the connection handler

  /** What a callback of the handler answers. */
  datatype Reply = Accepted | CannotPublish | EmptyName | CannotPlay | NotFound | HandlerClosed

  class Handler {
    const relayService: RelayService
    const r1: bool
    var isClosed: bool
    var closedChanClosed: bool
    var pub: Pub?
    var pubOf: Pubsub?
    var sub: Sub?

    constructor (relayService: RelayService, r1: bool)
      ensures this.relayService == relayService && this.r1 == r1
      ensures !isClosed && !closedChanClosed && pub == null && pubOf == null && sub == null
    {
      this.relayService, this.r1 := relayService, r1;
      isClosed, closedChanClosed := false, false;
      pub, pubOf, sub := null, null, null;
    }

    /** A closed handler refuses, but its new pubsub stays registered. */
    method OnPublish(publishingName: R.Key) returns (reply: Reply)
      requires relayService.Valid()
      modifies this`pub, this`pubOf
      modifies relayService, relayService.streamsChanged, relayService.all
      ensures relayService.Valid()
      ensures reply == if sub != null then CannotPublish else if publishingName == "" then EmptyName
                       else if isClosed then HandlerClosed else Accepted
      ensures sub != null || publishingName == "" ==> relayService.reg == old(relayService.reg)
      ensures sub == null && publishingName != "" ==>
                && R.Get(relayService.reg, publishingName) == Some(|old(relayService.all)|)
                && publishingName in relayService.streams
                && relayService.streams[publishingName].publisherHandler == this
      ensures if reply == Accepted
              then pub != null && fresh(pub) && pub.Valid() && pub.log == []
                   && pubOf != null && pubOf == relayService.streams[publishingName]
              else pub == old(pub) && pubOf == old(pubOf)
    {
      if sub != null {
        return CannotPublish;
      }
      if publishingName == "" {
        return EmptyName;
      }
      var pubsub := relayService.NewPubsub(publishingName, this);
      var p := new Pub(r1);
      if isClosed {
        return HandlerClosed;
      }
      pub, pubOf := p, pubsub;
      reply := Accepted;
    }

    /** A closed handler registers no subscriber. */
    method OnPlay(streamName: R.Key) returns (reply: Reply)
      requires relayService.Valid() && forall p :: p in relayService.all ==> p.Valid()
      modifies this`sub, relayService.all
      ensures relayService.reg == old(relayService.reg)
      ensures reply == if old(sub) != null then CannotPlay
                       else if R.Get(relayService.reg, streamName) == None then NotFound
                       else if isClosed then HandlerClosed else Accepted
      ensures if reply == Accepted
              then sub != null && fresh(sub) && sub.Valid() && sub.shut == NewShut(true) && !sub.initDone
                   && streamName in relayService.streams
                   && sub in relayService.streams[streamName].subs.Values
              else sub == old(sub) && forall p :: p in relayService.all ==> p.subs == old(p.subs)
    {
      if sub != null {
        return CannotPlay;
      }
      var pubsub := relayService.GetPubsub(streamName);
      if pubsub == null {
        return NotFound;
      }
      if isClosed {
        return HandlerClosed;
      }
      sub := pubsub.NewSub(true);
      assert pubsub.subs[sub.subID] == sub;
      reply := Accepted;
    }

    /** The first call closes the channel, which is open then, and hands over what is to be closed. */
    method OnClose() returns (toClose: Option<(Pub?, Sub?)>)
      requires closedChanClosed == isClosed
      modifies this`isClosed, this`closedChanClosed
      ensures isClosed && closedChanClosed
      ensures toClose == if old(isClosed) then None else Some((pub, sub))
    {
      if isClosed {
        return None;
      }
      assert !closedChanClosed;  // closing a closed channel would panic
      closedChanClosed := true;
      isClosed := true;
      toClose := Some((pub, sub));
    }
  }
}
