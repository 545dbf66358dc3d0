/**
 One publisher and its subscribers as a step relation: a publication updates the cache and then visits
 the registered subscribers one by one, submitting tag by tag, while subscribers register, pull, call
 back, overflow, close and unregister, and deregistrations empty the registry and start closer
 goroutines. Publications of one publisher do not overlap; everything else interleaves freely.
 */
module Broadcast {
  import opened Wrappers
  import Runs
  import opened Flv
  import opened TagCache
  import opened LateJoin
  import opened Subscriber

  /** Which repairs apply. `Variant(false, false)` is the code as written: R1 keeps the tags since the
      key frame, R2 gives the closer goroutine its own copy of the subscribers. */
  datatype Variant = Variant(r1: bool, r2: bool)

  /** `trigger` is the log position of the publication that initialised the subscriber (its `initOnce`
      is done when it is set); `upto` counts the publications that visited or preceded it. */
  datatype Sub = Sub(subID: nat, feed: Feed, shut: Shut, sender: Sender, trigger: Option<nat>, upto: nat)

  /** The loop of `Publish` ranges over the live map: keys present at its start must be visited unless
      removed first, later ones may be. `rest` is what is still to be submitted to `target`. */
  datatype Phase = Quiet | Visiting(todo: set<nat>, visited: set<nat>, target: nat, rest: seq<Tag>)

  /** A closer goroutine of `deregister`: who was registered, whom it has turned to, and the `Close`
      call (subscriber, call) it is waiting for. */
  datatype Closer = Closer(snapshot: set<nat>, done: set<nat>, waiting: Option<(nat, nat)>, ended: bool)

  /** Subscribers are numbered in order of allocation; `subs` maps registry keys to them. */
  datatype World = World(
    log: seq<Tag>, cache: Cache, phase: Phase,
    subs: map<nat, nat>, nextSubID: nat, objs: seq<Sub>, closers: seq<Closer>)

  const INITIAL := World([], EMPTY, Quiet, map[], 0, [], [])

  /** What a subscriber's own goroutines do: the sender loop, and starting a `Close` call. */
  datatype LocalAct = PullTag | ClosedQueue | CheckClosed | CallBack | CallbackReturns | EndSender | StartClose

  datatype Act =
    | Register(hasConn: bool)
    | BeginPublish(tag: Tag) | Visit(key: nat) | SubmitNext | EndPublish
    | Local(o: nat, local: LocalAct) | StepClose(o: nat, c: nat)
    | Deregister | CloserTakes(g: nat, o: nat) | CloserProceeds(g: nat) | CloserEnds(g: nat)

  function Put(w: World, o: nat, s: Sub): World
    requires o < |w.objs|
  {
    w.(objs := w.objs[o := s])
  }

  /** `Submit` on a subscriber: an overflow starts a `Close` call. */
  function SubmitTo(s: Sub, t: Tag): Sub {
    s.(feed := Submit(s.feed, t), shut := if Full(s.feed) then Begin(s.shut) else s.shut)
  }

  // ---------------------------------------------------------------- the steps

  function DoRegister(w: World, hasConn: bool): World {
    w.(subs := w.subs[w.nextSubID := |w.objs|], nextSubID := w.nextSubID + 1,
       objs := w.objs + [Sub(w.nextSubID, NO_FEED, NewShut(hasConn), Waiting, None, 0)])
  }

  function DoBeginPublish(v: Variant, w: World, t: Tag): Option<World> {
    if w.phase != Quiet then None
    else Some(w.(log := w.log + [t], cache := Step(v.r1, w.cache, t),
                 phase := Visiting(w.subs.Keys, {}, 0, [])))
  }

  /** `InitSub`, or else `Submit` of a view of the tag. */
  function DoVisit(w: World, key: nat): Option<World> {
    if !w.phase.Visiting? || w.phase.rest != [] || key !in w.subs || key in w.phase.visited
       || w.subs[key] >= |w.objs| || w.log == [] then None
    else
      var o := w.subs[key];
      var s := w.objs[o];
      var tags := if s.trigger.None? then InitTags(w.cache) else [w.log[|w.log| - 1]];
      Some(Put(w, o, s.(trigger := if s.trigger.None? then Some(|w.log| - 1) else s.trigger, upto := |w.log|))
           .(phase := w.phase.(visited := w.phase.visited + {key}, target := o, rest := tags)))
  }

  function DoSubmitNext(w: World): Option<World> {
    if !w.phase.Visiting? || w.phase.rest == [] || w.phase.target >= |w.objs| then None
    else
      var o := w.phase.target;
      Some(Put(w, o, SubmitTo(w.objs[o], w.phase.rest[0])).(phase := w.phase.(rest := w.phase.rest[1..])))
  }

  function DoEndPublish(w: World): Option<World> {
    if !w.phase.Visiting? || w.phase.rest != [] || !(w.phase.todo * w.subs.Keys <= w.phase.visited) then None
    else Some(w.(phase := Quiet))
  }

  /** The steps of one subscriber that touch nothing else. */
  function DoLocal(s: Sub, a: LocalAct): Option<Sub> {
    match a
    case PullTag =>
      if s.sender != Waiting || s.feed.queue == [] then None
      else Some(s.(feed := Pull(s.feed), sender := Holding(s.feed.queue[0])))
    case ClosedQueue =>
      if s.sender != Waiting || s.feed.queue != [] || !s.feed.queueClosed then None
      else Some(s.(shut := Begin(s.shut), sender := Ended))
    case CheckClosed =>
      if !s.sender.Holding? then None
      else Some(s.(sender := if s.shut.closed then Waiting else Passed(s.sender.tag)))
    case CallBack =>
      if !s.sender.Passed? then None
      else Some(s.(feed := s.feed.(delivered := s.feed.delivered + [s.sender.tag]), sender := InCallback))
    case CallbackReturns =>
      if s.sender != InCallback then None else Some(s.(sender := Waiting))
    case EndSender =>
      if s.sender != Waiting || !s.shut.cancelled then None else Some(s.(sender := Ended))
    case StartClose => Some(s.(shut := Begin(s.shut)))
  }

  function DoStepClose(w: World, o: nat, c: nat): Option<World> {
    if o >= |w.objs| || !CanClose(w.objs[o].shut, c) then None
    else
      var s := w.objs[o];
      var w' := Put(w, o, s.(shut := CloseStep(s.shut, c)));
      Some(if s.shut.calls[c] == MarkedClosed then w'.(subs := w.subs - {s.subID}) else w')
  }

  function DoDeregister(w: World): World {
    w.(subs := map[], closers := w.closers + [Closer(w.subs.Values, {}, None, false)])
  }

  /** R2 ranges over the copy; as written the goroutine ranges over the live map. */
  function DoCloserTakes(v: Variant, w: World, g: nat, o: nat): Option<World> {
    if g >= |w.closers| || o >= |w.objs| then None
    else
      var x := w.closers[g];
      if x.ended || x.waiting.Some? || o in x.done
         || (if v.r2 then o !in x.snapshot else o !in w.subs.Values) then None
      else
        var s := w.objs[o];
        Some(Put(w, o, s.(shut := Begin(s.shut)))
             .(closers := w.closers[g := x.(done := x.done + {o}, waiting := Some((o, |s.shut.calls|)))]))
  }

  function DoCloserProceeds(w: World, g: nat): Option<World> {
    if g >= |w.closers| || w.closers[g].waiting.None? then None
    else
      var x := w.closers[g];
      var (o, c) := x.waiting.value;
      if o >= |w.objs| || c >= |w.objs[o].shut.calls| || w.objs[o].shut.calls[c] != Returned then None
      else Some(w.(closers := w.closers[g := x.(waiting := None)]))
  }

  function DoCloserEnds(v: Variant, w: World, g: nat): Option<World> {
    if g >= |w.closers| || w.closers[g].waiting.Some?
       || (v.r2 && !(w.closers[g].snapshot <= w.closers[g].done)) then None
    else Some(w.(closers := w.closers[g := w.closers[g].(ended := true)]))
  }

  /** One step; `None` when it is not enabled. */
  function Next(v: Variant, w: World, a: Act): Option<World> {
    match a
    case Register(hasConn) => Some(DoRegister(w, hasConn))
    case BeginPublish(t) => DoBeginPublish(v, w, t)
    case Visit(key) => DoVisit(w, key)
    case SubmitNext => DoSubmitNext(w)
    case EndPublish => DoEndPublish(w)
    case StepClose(o, c) => DoStepClose(w, o, c)
    case Deregister => Some(DoDeregister(w))
    case CloserTakes(g, o) => DoCloserTakes(v, w, g, o)
    case CloserProceeds(g) => DoCloserProceeds(w, g)
    case CloserEnds(g) => DoCloserEnds(v, w, g)
    case Local(o, l) =>
      if o >= |w.objs| || DoLocal(w.objs[o], l).None? then None
      else Some(Put(w, o, DoLocal(w.objs[o], l).value))
  }

  function Steps(v: Variant): (World, Act) -> Option<World> {
    (w: World, a: Act) => Next(v, w, a)
  }

  /** The world after a run; `None` when some step was not enabled. */
  function Exec(v: Variant, w: World, acts: seq<Act>): Option<World> {
    Runs.Exec(Steps(v), w, acts)
  }

  // ---------------------------------------------------------------- the invariant

  /** What is still to be submitted to subscriber `o`. */
  function Inbox(p: Phase, o: nat): seq<Tag> {
    if p.Visiting? && p.target == o then p.rest else []
  }

  /** A registered, initialised subscriber has been fed the whole log, up to the running publication. */
  predicate FedUp(p: Phase, logged: nat, s: Sub) {
    match p
    case Quiet => s.upto == logged
    case Visiting(todo, visited, _, _) =>
      if s.subID in visited then s.upto == logged else s.subID in todo && s.upto + 1 == logged
  }

  predicate JoinInv(v: Variant, w: World, s: Sub, o: nat) {
    match s.trigger
    case None =>
      && s.feed.submitted == [] && Inbox(w.phase, o) == []
      && (w.phase.Visiting? ==> s.subID !in w.phase.visited)
    case Some(i) =>
      && i < s.upto <= |w.log|
      && s.feed.submitted + Inbox(w.phase, o) == Stream(v.r1, w.log, i, s.upto)
      && (s.subID in w.subs ==> FedUp(w.phase, |w.log|, s))
  }

  predicate OwnInv(s: Sub, registered: bool) {
    && FeedInv(s.feed)
    && ShutInv(s.shut, registered)
    && SenderInv(s.feed, s.shut.closed, s.sender)
    && (s.sender == Ended ==> s.shut.cancelled)
    && |s.feed.submitted| <= |s.feed.accepted| + |s.shut.calls|
  }

  predicate SubInv(v: Variant, w: World, o: nat)
    requires o < |w.objs|
  {
    var s := w.objs[o];
    s.subID == o && OwnInv(s, s.subID in w.subs) && JoinInv(v, w, s, o)
  }

  predicate RegistryInv(w: World) {
    && w.nextSubID == |w.objs|
    && forall k :: k in w.subs ==> k < |w.objs| && w.subs[k] == k
  }

  predicate PhaseInv(p: Phase, objs: nat) {
    p.Visiting? ==> (forall k :: k in p.todo ==> k < objs) && (forall k :: k in p.visited ==> k < objs)
                    && (p.rest != [] ==> p.target < objs)
  }

  predicate CloserInv(v: Variant, w: World, x: Closer) {
    && (forall o :: o in x.snapshot ==> o < |w.objs| && o !in w.subs)
    && (forall o :: o in x.done ==> o < |w.objs|)
    && (x.waiting.Some? ==> x.waiting.value.0 in x.done && x.waiting.value.1 < |w.objs[x.waiting.value.0].shut.calls|)
    && (x.ended ==> x.waiting.None? && (v.r2 ==> x.snapshot <= x.done))
    && (v.r2 ==> x.done <= x.snapshot)
    && (!v.r2 ==> x.done !! x.snapshot)
    && (forall o :: o in x.done && (x.waiting.None? || x.waiting.value.0 != o) ==>
          w.objs[o].shut.closed && o !in w.subs)
  }

  predicate Inv(v: Variant, w: World) {
    && w.cache == Run(v.r1, w.log)
    && RegistryInv(w)
    && PhaseInv(w.phase, |w.objs|)
    && (w.phase.Visiting? ==> w.log != [])
    && (forall o :: 0 <= o < |w.objs| ==> SubInv(v, w, o))
    && (forall g :: 0 <= g < |w.closers| ==> CloserInv(v, w, w.closers[g]))
  }
}
