/**
 What the broadcast protocol brings about: a sender that was not cancelled delivers everything accepted, a
 publication that has begun reaches every registered subscriber, registered subscribers stay, and `Close`
 calls start for the stated reasons only.
 */
module BroadcastLiveness {
  import opened Wrappers
  import opened Sequences
  import opened Flv
  import opened LateJoin
  import opened Subscriber
  import opened Broadcast
  import opened BroadcastInvariant
  import opened BroadcastTheorems

  // ---------------------------------------------------------------- the sender goes on

  /** The sender of a reachable subscriber has nothing to do exactly when its context was cancelled and it
      ended, or it waits for a tag with an empty queue. */
  lemma SenderIdleExactlyWhen(v: Variant, acts: seq<Act>, o: nat)
    requires Exec(v, INITIAL, acts).Some? && o < |Exec(v, INITIAL, acts).value.objs|
    ensures var s := Exec(v, INITIAL, acts).value.objs[o];
      && (s.sender == Ended ==> s.shut.cancelled)
      && ((forall l: LocalAct :: l != StartClose ==> DoLocal(s, l).None?)
          <==> s.sender == Ended || (s.sender == Waiting && s.feed.queue == [] && !s.shut.cancelled))
  {
    ReachableInv(v, acts);
    var w := Exec(v, INITIAL, acts).value;
    assert SubInv(v, w, o);
    Enabled(w.objs[o]);
  }

  lemma Enabled(s: Sub)
    requires !s.feed.queueClosed
    ensures (forall l: LocalAct :: l != StartClose ==> DoLocal(s, l).None?)
      <==> s.sender == Ended || (s.sender == Waiting && s.feed.queue == [] && !s.shut.cancelled)
  {
    var l := match s.sender
      case Waiting => if s.feed.queue != [] then PullTag else EndSender
      case Holding(_) => CheckClosed
      case Passed(_) => CallBack
      case InCallback => CallbackReturns
      case Ended => PullTag;
    assert s.sender != Ended && (s.sender == Waiting ==> s.feed.queue != [] || s.shut.cancelled) ==>
             l != StartClose && DoLocal(s, l).Some?;
  }

  /** How much the sender has to do. */
  function SenderWork(s: Sub): nat {
    4 * |s.feed.queue| + match s.sender
      case Waiting => 0 case Holding(_) => 3 case Passed(_) => 2 case InCallback => 1 case Ended => 0
  }

  /** One step of a sender that was not cancelled. */
  lemma SenderStep(s: Sub, registered: bool) returns (l: LocalAct)
    requires OwnInv(s, registered) && !s.shut.cancelled && SenderWork(s) > 0
    ensures l != StartClose && DoLocal(s, l).Some?
    ensures var s' := DoLocal(s, l).value;
      SenderWork(s') < SenderWork(s) && s'.shut == s.shut && s'.feed.accepted == s.feed.accepted
  {
    l := match s.sender
      case Waiting => PullTag
      case Holding(_) => CheckClosed
      case Passed(_) => CallBack
      case InCallback => CallbackReturns
      case Ended => PullTag;
  }

  /** Only the sender of subscriber `o` moves. */
  predicate OnlySender(acts: seq<Act>, o: nat) {
    forall i :: 0 <= i < |acts| ==> acts[i].Local? && acts[i].o == o && acts[i].local != StartClose
  }

  predicate DeliveredAll(s: Sub, accepted: seq<Tag>) {
    s.sender == Waiting && s.feed.queue == [] && s.feed.delivered == s.feed.accepted == accepted
  }

  lemma LocalInWorld(v: Variant, w: World, o: nat, l: LocalAct)
    requires o < |w.objs| && DoLocal(w.objs[o], l).Some?
    ensures Next(v, w, Local(o, l)) == Some(Put(w, o, DoLocal(w.objs[o], l).value))
  {
  }

  /** From every reachable world in which a subscriber was not cancelled, its sender alone can deliver
      everything that was accepted. */
  lemma {:induction false} SenderDrains(v: Variant, acts: seq<Act>, o: nat) returns (more: seq<Act>)
    requires Exec(v, INITIAL, acts).Some? && o < |Exec(v, INITIAL, acts).value.objs|
    requires !Exec(v, INITIAL, acts).value.objs[o].shut.cancelled
    ensures OnlySender(more, o) && Exec(v, INITIAL, acts + more).Some?
    ensures var w, w' := Exec(v, INITIAL, acts).value, Exec(v, INITIAL, acts + more).value;
      o < |w'.objs| && DeliveredAll(w'.objs[o], w.objs[o].feed.accepted)
    decreases SenderWork(Exec(v, INITIAL, acts).value.objs[o])
  {
    var w := Exec(v, INITIAL, acts).value;
    ReachableInv(v, acts);
    assert SubInv(v, w, o);
    var s := w.objs[o];
    if SenderWork(s) == 0 {
      more := [];
      assert acts + more == acts;
      IdleHasDelivered(s, o in w.subs);
    } else {
      var l := SenderStep(s, o in w.subs);
      LocalInWorld(v, w, o, l);
      var longer := Then(v, acts, Local(o, l));
      var rest := SenderDrains(v, longer, o);
      more := [Local(o, l)] + rest;
      ConcatAssoc(acts, [Local(o, l)], rest);
    }
  }

  lemma IdleHasDelivered(s: Sub, registered: bool)
    requires OwnInv(s, registered) && !s.shut.cancelled && SenderWork(s) == 0
    ensures DeliveredAll(s, s.feed.accepted)
  {
    assert s.feed.pulled + s.feed.queue == s.feed.pulled;
  }

  // ---------------------------------------------------------------- a publication reaches everybody

  /** Whom the running publication still has to visit. */
  function Pending(w: World): set<nat> {
    if w.phase.Visiting? then w.phase.todo * w.subs.Keys - w.phase.visited else {}
  }

  function Rest(w: World): nat {
    if w.phase.Visiting? then |w.phase.rest| else 0
  }

  predicate OfPublication(a: Act) {
    a.Visit? || a.SubmitNext? || a.EndPublish?
  }

  predicate OnlyPublication(acts: seq<Act>) {
    forall i :: 0 <= i < |acts| ==> OfPublication(acts[i])
  }

  /** The publication goes on without changing what is published or registered. */
  predicate SamePublication(w: World, w': World) {
    && w'.phase.Visiting? && w.phase.Visiting? && w'.phase.todo == w.phase.todo
    && w'.log == w.log && w'.subs == w.subs && |w'.objs| == |w.objs|
  }

  lemma SubmitsOn(v: Variant, w: World)
    requires Inv(v, w) && w.phase.Visiting? && w.phase.rest != []
    ensures Next(v, w, SubmitNext).Some?
    ensures var w' := Next(v, w, SubmitNext).value;
      SamePublication(w, w') && Pending(w') == Pending(w) && Rest(w') < Rest(w)
  {
  }

  lemma VisitsOn(v: Variant, w: World, key: nat)
    requires Inv(v, w) && w.phase.Visiting? && w.phase.rest == [] && key in Pending(w)
    ensures Next(v, w, Visit(key)).Some?
    ensures var w' := Next(v, w, Visit(key)).value;
      SamePublication(w, w') && |Pending(w')| < |Pending(w)|
  {
    var w' := Next(v, w, Visit(key)).value;
    assert Pending(w) == Pending(w') + {key};
  }

  lemma GoesOn(v: Variant, w: World) returns (a: Act)
    requires Inv(v, w) && w.phase.Visiting? && (w.phase.rest != [] || Pending(w) != {})
    ensures OfPublication(a) && Next(v, w, a).Some?
    ensures var w' := Next(v, w, a).value;
      && SamePublication(w, w')
      && (|Pending(w')| < |Pending(w)| || (Pending(w') == Pending(w) && Rest(w') < Rest(w)))
  {
    if w.phase.rest != [] {
      SubmitsOn(v, w);
      a := SubmitNext;
    } else {
      var key :| key in Pending(w);
      VisitsOn(v, w, key);
      a := Visit(key);
    }
  }

  /** Who was visited is initialised. */
  lemma EndsWithAll(v: Variant, w: World)
    requires Inv(v, w) && w.phase.Visiting? && w.phase.rest == [] && Pending(w) == {}
    ensures Next(v, w, EndPublish) == Some(w.(phase := Quiet))
    ensures forall o :: o in w.phase.todo && o in w.subs ==> o < |w.objs| && w.objs[o].trigger.Some?
  {
    forall o | o in w.phase.todo && o in w.subs ensures o < |w.objs| && w.objs[o].trigger.Some? {
      assert o !in Pending(w);
      assert SubInv(v, w, o);
    }
    forall k | k in w.phase.todo * w.subs.Keys ensures k in w.phase.visited {
      assert k !in Pending(w);
    }
  }

  /** Every subscriber registered at the start of the publication and now has been initialised. */
  predicate AllReached(w: World, todo: set<nat>) {
    forall o :: o in todo && o in w.subs ==> o < |w.objs| && w.objs[o].trigger.Some?
  }

  /** A publication under way can be brought to its end by its own steps. */
  lemma {:induction false} PublicationEnds(v: Variant, acts: seq<Act>) returns (more: seq<Act>)
    requires Exec(v, INITIAL, acts).Some? && Exec(v, INITIAL, acts).value.phase.Visiting?
    ensures OnlyPublication(more) && Exec(v, INITIAL, acts + more).Some?
    ensures var w, w' := Exec(v, INITIAL, acts).value, Exec(v, INITIAL, acts + more).value;
      w'.phase.Quiet? && w'.log == w.log && w'.subs == w.subs && AllReached(w', w.phase.todo)
    decreases |Pending(Exec(v, INITIAL, acts).value)|, Rest(Exec(v, INITIAL, acts).value)
  {
    var w := Exec(v, INITIAL, acts).value;
    ReachableInv(v, acts);
    if w.phase.rest == [] && Pending(w) == {} {
      EndsWithAll(v, w);
      more := [EndPublish];
      var ended := Then(v, acts, EndPublish);
    } else {
      var a := GoesOn(v, w);
      var longer := Then(v, acts, a);
      var rest := PublicationEnds(v, longer);
      more := [a] + rest;
      ConcatAssoc(acts, [a], rest);
    }
  }

  /** From every reachable world without a publication under way a tag can be published through, and then
      every registered subscriber has been submitted its whole stream, this tag included. */
  lemma PublishReachesAll(v: Variant, acts: seq<Act>, t: Tag) returns (more: seq<Act>)
    requires Exec(v, INITIAL, acts).Some? && Exec(v, INITIAL, acts).value.phase.Quiet?
    ensures more != [] && more[0] == BeginPublish(t) && OnlyPublication(more[1..])
    ensures Exec(v, INITIAL, acts + more).Some?
    ensures var w, w' := Exec(v, INITIAL, acts).value, Exec(v, INITIAL, acts + more).value;
      && w'.phase.Quiet? && w'.log == w.log + [t] && w'.subs == w.subs
      && forall o :: o in w.subs ==> FedWholeStream(v, w', o)
  {
    var w := Exec(v, INITIAL, acts).value;
    var begun := Then(v, acts, BeginPublish(t));
    assert Exec(v, INITIAL, begun).value.phase == Visiting(w.subs.Keys, {}, 0, []);
    var rest := PublicationEnds(v, begun);
    more := [BeginPublish(t)] + rest;
    ConcatAssoc(acts, [BeginPublish(t)], rest);
    var w' := Exec(v, INITIAL, acts + more).value;
    forall o | o in w.subs ensures FedWholeStream(v, w', o) {
      ReachedIsFed(v, acts + more, o);
    }
  }

  predicate FedWholeStream(v: Variant, w: World, o: nat) {
    && o < |w.objs| && w.objs[o].trigger.Some? && w.objs[o].trigger.value < |w.log|
    && w.objs[o].feed.submitted == Stream(v.r1, w.log, w.objs[o].trigger.value, |w.log|)
  }

  lemma ReachedIsFed(v: Variant, acts: seq<Act>, o: nat)
    requires Exec(v, INITIAL, acts).Some? && Exec(v, INITIAL, acts).value.phase.Quiet?
    requires var w := Exec(v, INITIAL, acts).value; o in w.subs && o < |w.objs| && w.objs[o].trigger.Some?
    ensures FedWholeStream(v, Exec(v, INITIAL, acts).value, o)
  {
    ReachableInv(v, acts);
    var w := Exec(v, INITIAL, acts).value;
    assert w.subs[o] in w.subs.Values;
    FeedIsStream(v, acts, o);
  }

  /** A subscriber registered while a publication is under way may be visited by it as well: here it is
      initialised by the very tag being published. */
  lemma NewcomerVisited(v: Variant, t: Tag) returns (acts: seq<Act>)
    ensures |acts| == 3 && acts[0] == BeginPublish(t) && acts[1] == Register(true) && Exec(v, INITIAL, acts).Some?
    ensures var w := Exec(v, INITIAL, acts).value; |w.objs| == 1 && w.objs[0].trigger == Some(0)
  {
    acts := Then(v, [], BeginPublish(t));
    acts := Then(v, acts, Register(true));
    acts := Then(v, acts, Visit(0));
  }

  // ---------------------------------------------------------------- registration

  /** What registering does: a subscriber of its own number, with nothing behind it, and no change to
      anybody else. */
  lemma RegisterGives(v: Variant, acts: seq<Act>, hasConn: bool)
    requires Exec(v, INITIAL, acts).Some?
    ensures var w, w' := Exec(v, INITIAL, acts).value, Next(v, Exec(v, INITIAL, acts).value, Register(hasConn)).value;
      var o := |w.objs|;
      && |w'.objs| == o + 1 && w'.objs[..o] == w.objs && o !in w.subs.Values
      && w'.subs.Values == w.subs.Values + {o}
      && var s := w'.objs[o];
      && s.shut.hadConn == s.shut.conn == hasConn && s.shut.calls == [] && !s.shut.cancelled
      && s.feed == NO_FEED && s.sender == Waiting && s.trigger.None?
  {
    ReachableInv(v, acts);
    var w := Exec(v, INITIAL, acts).value;
    var w' := Next(v, w, Register(hasConn)).value;
    ValuesAreKeys(w);
    assert w'.subs[|w.objs|] == |w.objs|;
    forall k | k in w.subs ensures w.subs[k] in w'.subs.Values {
      assert w'.subs[k] == w.subs[k];
    }
  }

  /** A registered subscriber stays registered, unless a deregistration comes or its own `Close` has marked
      it closed. */
  lemma {:induction false} RegisteredStays(v: Variant, acts: seq<Act>, more: seq<Act>, o: nat)
    requires Exec(v, INITIAL, acts).Some? && Exec(v, INITIAL, acts + more).Some?
    requires o in Exec(v, INITIAL, acts).value.subs && Deregister !in more
    ensures var w' := Exec(v, INITIAL, acts + more).value;
      o < |w'.objs| && (o in w'.subs || w'.objs[o].shut.closed)
    decreases |more|
  {
    ReachableInv(v, acts);
    if more == [] {
      assert acts + more == acts;
    } else {
      var front, a := more[..|more| - 1], more[|more| - 1];
      FrontOfConcat(acts, more);
      assert a in more;
      RegisteredStays(v, acts, front, o);
      ReachableInv(v, acts + front);
      RegisteredStep(v, Exec(v, INITIAL, acts + front).value, a, o);
    }
  }

  lemma RegisteredStep(v: Variant, w: World, a: Act, o: nat)
    requires Inv(v, w) && Next(v, w, a).Some? && a != Deregister
    requires o < |w.objs| && (o in w.subs || w.objs[o].shut.closed)
    ensures var w' := Next(v, w, a).value; o < |w'.objs| && (o in w'.subs || w'.objs[o].shut.closed)
  {
    assert SubInv(v, w, o);
    StepEvolves(v, w, a, o);
    if a.StepClose? && w.objs[a.o].shut.calls[a.c] == MarkedClosed {
      assert SubInv(v, w, a.o);
      assert CallInv(w.objs[a.o].shut, a.o in w.subs, a.c);
    }
  }

  /** As written the closer goroutine ranges over the live map: it may close a subscriber registered after
      the deregistration. */
  lemma NewcomerClosedAsWritten() returns (acts: seq<Act>)
    ensures var v := Variant(false, false);
      && Exec(v, INITIAL, acts).Some? && |acts| == 3 && acts[0] == Deregister && acts[1] == Register(true)
      && var w := Exec(v, INITIAL, acts).value; |w.objs| == 1 && w.objs[0].shut.calls == [Begun]
  {
    var v := Variant(false, false);
    acts := Then(v, [], Deregister);
    var w0 := Exec(v, INITIAL, acts).value;
    assert |w0.closers| == 1 && w0.subs == map[] && w0.objs == [];
    acts := Then(v, acts, Register(true));
    TakesNewcomer(Exec(v, INITIAL, acts).value);
    acts := Then(v, acts, CloserTakes(0, 0));
  }

  lemma TakesNewcomer(w: World)
    requires |w.closers| == 1 && w.closers[0].done == {} && w.closers[0].waiting.None? && !w.closers[0].ended
    requires w.subs == map[0 := 0]
    requires |w.objs| == 1 && w.objs[0].shut.calls == []
    ensures var w' := Next(Variant(false, false), w, CloserTakes(0, 0));
      w'.Some? && |w'.value.objs| == 1 && w'.value.objs[0].shut.calls == [Begun]
  {
    assert w.subs[0] == 0 && 0 in w.subs.Values;
  }

  // ---------------------------------------------------------------- why calls start

  /** How often a `Close` of subscriber `o` was asked for from outside: by a holder of it, or by a closer
      goroutine. */
  function AskedToClose(acts: seq<Act>, o: nat): nat {
    if acts == [] then 0
    else
      var a := acts[|acts| - 1];
      AskedToClose(acts[..|acts| - 1], o)
      + if a == Local(o, StartClose) || (a.CloserTakes? && a.o == o) then 1 else 0
  }

  function Calls(w: World, o: nat): nat {
    if o < |w.objs| then |w.objs[o].shut.calls| else 0
  }

  function Dropped(w: World, o: nat): int {
    if o < |w.objs| then |w.objs[o].feed.submitted| - |w.objs[o].feed.accepted| else 0
  }

  /** Exactly one `Close` call for every dropped tag and for everybody who asked. */
  lemma {:induction false} CloseCallsCounted(v: Variant, acts: seq<Act>, o: nat)
    requires Exec(v, INITIAL, acts).Some?
    ensures var w := Exec(v, INITIAL, acts).value; Calls(w, o) == Dropped(w, o) + AskedToClose(acts, o)
  {
    if acts != [] {
      var front, a := acts[..|acts| - 1], acts[|acts| - 1];
      CloseCallsCounted(v, front, o);
      ReachableInv(v, front);
      CallsStep(v, Exec(v, INITIAL, front).value, a, o);
    }
  }

  lemma CallsStep(v: Variant, w: World, a: Act, o: nat)
    requires Inv(v, w) && Next(v, w, a).Some?
    ensures var w' := Next(v, w, a).value;
      Calls(w', o) - Dropped(w', o)
      == Calls(w, o) - Dropped(w, o) + if a == Local(o, StartClose) || (a.CloserTakes? && a.o == o) then 1 else 0
  {
    if o < |w.objs| {
      assert SubInv(v, w, o);
      if a.StepClose? {
        CloseStepGrows(w.objs[a.o].shut, a.c);
      } else if a.Local? && a.o == o {
        LocalCalls(w.objs[o], a.local);
      } else if a.SubmitNext? && w.phase.target == o {
        SubmitCalls(w.objs[o], w.phase.rest[0]);
      }
    }
  }

  function Balance(s: Sub): int {
    |s.shut.calls| - (|s.feed.submitted| - |s.feed.accepted|)
  }

  lemma LocalCalls(s: Sub, l: LocalAct)
    requires DoLocal(s, l).Some? && !s.feed.queueClosed
    ensures Balance(DoLocal(s, l).value) == Balance(s) + if l == StartClose then 1 else 0
  {
  }

  lemma SubmitCalls(s: Sub, t: Tag)
    ensures Balance(SubmitTo(s, t)) == Balance(s)
  {
  }
}
