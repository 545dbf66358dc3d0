/** Every step of the broadcast protocol keeps its invariant, hence every run does. */
module BroadcastInvariant {
  import opened Wrappers
  import opened Flv
  import opened TagCache
  import opened LateJoin
  import opened Subscriber
  import opened Broadcast

  // ---------------------------------------------------------------- streams grow at their end

  lemma StreamOfLongerLog(r1: bool, log: seq<Tag>, t: Tag, i: nat, n: nat)
    requires i < n <= |log|
    ensures Stream(r1, log + [t], i, n) == Stream(r1, log, i, n)
  {
    assert (log + [t])[..i + 1] == log[..i + 1] && (log + [t])[i + 1..n] == log[i + 1..n];
  }

  lemma StreamGrows(r1: bool, log: seq<Tag>, i: nat, n: nat)
    requires i < n < |log|
    ensures Stream(r1, log, i, n + 1) == Stream(r1, log, i, n) + [log[n]]
  {
    assert log[i + 1..n + 1] == log[i + 1..n] + [log[n]];
  }

  lemma StreamAtTrigger(r1: bool, log: seq<Tag>)
    requires log != []
    ensures Stream(r1, log, |log| - 1, |log|) == InitTags(Run(r1, log))
  {
    assert log[..|log|] == log && log[|log|..|log|] == [];
  }

  // ---------------------------------------------------------------- steps of one subscriber

  lemma BeginKeepsOwn(s: Sub, registered: bool)
    requires OwnInv(s, registered)
    ensures OwnInv(s.(shut := Begin(s.shut)), registered)
  {
    BeginKeepsShut(s.shut, registered);
  }

  lemma SubmitKeepsOwn(s: Sub, t: Tag, registered: bool)
    requires OwnInv(s, registered)
    ensures OwnInv(SubmitTo(s, t), registered)
  {
    SubmitKeepsFeed(s.feed, t);
    BeginKeepsShut(s.shut, registered);
  }

  lemma LocalKeepsOwn(s: Sub, a: LocalAct, registered: bool)
    requires OwnInv(s, registered) && DoLocal(s, a).Some?
    ensures var s' := DoLocal(s, a).value;
      && OwnInv(s', registered)
      && s'.subID == s.subID && s'.trigger == s.trigger && s'.upto == s.upto
      && s'.feed.submitted == s.feed.submitted
      && s'.shut.closed == s.shut.closed && |s'.shut.calls| >= |s.shut.calls|
  {
    if a.PullTag? {
      PullKeepsFeed(s.feed);
    } else if a.StartClose? {
      BeginKeepsShut(s.shut, registered);
    }
  }

  lemma CloseStepKeepsOwn(s: Sub, c: nat, registered: bool)
    requires OwnInv(s, registered) && CanClose(s.shut, c)
    ensures OwnInv(s.(shut := CloseStep(s.shut, c)), registered && s.shut.calls[c] != MarkedClosed)
    ensures s.shut.closed ==> CloseStep(s.shut, c).closed
    ensures |CloseStep(s.shut, c).calls| == |s.shut.calls|
  {
    CloseStepKeepsShut(s.shut, registered, c);
    CloseStepGrows(s.shut, c);
  }

  lemma CloseStepGrows(s: Shut, c: nat)
    requires CanClose(s, c)
    ensures CloseStep(s, c).hadConn == s.hadConn
    ensures s.closed ==> CloseStep(s, c).closed
    ensures |CloseStep(s, c).calls| == |s.calls|
  {
  }

  // ---------------------------------------------------------------- steps of the world

  /** Replacing one subscriber by one that was fed the same. */
  lemma PutKeepsInv(v: Variant, w: World, o: nat, s: Sub)
    requires Inv(v, w) && o < |w.objs|
    requires OwnInv(s, o in w.subs)
    requires var p := w.objs[o];
      && s.subID == p.subID && s.trigger == p.trigger && s.upto == p.upto
      && s.feed.submitted == p.feed.submitted
      && (p.shut.closed ==> s.shut.closed) && |s.shut.calls| >= |p.shut.calls|
    ensures Inv(v, Put(w, o, s))
  {
    var w' := Put(w, o, s);
    assert SubInv(v, w, o);
    forall q | 0 <= q < |w'.objs| ensures SubInv(v, w', q) {
      assert SubInv(v, w, q);
    }
    forall g | 0 <= g < |w'.closers| ensures CloserInv(v, w', w'.closers[g]) {
      assert CloserInv(v, w, w.closers[g]);
    }
  }

  lemma RegisterKeepsInv(v: Variant, w: World, hasConn: bool)
    requires Inv(v, w)
    ensures Inv(v, DoRegister(w, hasConn))
  {
    var w' := DoRegister(w, hasConn);
    forall q | 0 <= q < |w'.objs| ensures SubInv(v, w', q) {
      if q < |w.objs| {
        assert SubInv(v, w, q);
      }
    }
    forall g | 0 <= g < |w'.closers| ensures CloserInv(v, w', w'.closers[g]) {
      assert CloserInv(v, w, w.closers[g]);
    }
  }

  lemma BeginPublishKeepsInv(v: Variant, w: World, t: Tag)
    requires Inv(v, w) && w.phase.Quiet?
    ensures Inv(v, DoBeginPublish(v, w, t).value)
  {
    var w' := DoBeginPublish(v, w, t).value;
    assert w'.log[..|w'.log| - 1] == w.log;
    forall q | 0 <= q < |w'.objs| ensures SubInv(v, w', q) {
      assert SubInv(v, w, q);
      if w.objs[q].trigger.Some? {
        StreamOfLongerLog(v.r1, w.log, t, w.objs[q].trigger.value, w.objs[q].upto);
      }
    }
    forall g | 0 <= g < |w'.closers| ensures CloserInv(v, w', w'.closers[g]) {
      assert CloserInv(v, w, w.closers[g]);
    }
  }

  lemma VisitKeepsInv(v: Variant, w: World, key: nat)
    requires Inv(v, w) && DoVisit(w, key).Some?
    ensures Inv(v, DoVisit(w, key).value)
  {
    var w' := DoVisit(w, key).value;
    forall q | 0 <= q < |w'.objs| ensures SubInv(v, w', q) {
      assert SubInv(v, w, q);
      if q == key {
        VisitFeeds(v, w, key);
      }
    }
    forall g | 0 <= g < |w'.closers| ensures CloserInv(v, w', w'.closers[g]) {
      assert CloserInv(v, w, w.closers[g]);
    }
  }

  lemma VisitFeeds(v: Variant, w: World, o: nat)
    requires w.cache == Run(v.r1, w.log) && o in w.subs && w.subs[o] == o < |w.objs|
    requires w.objs[o].subID == o && JoinInv(v, w, w.objs[o], o) && DoVisit(w, o).Some?
    ensures var w' := DoVisit(w, o).value; o < |w'.objs| && JoinInv(v, w', w'.objs[o], o)
  {
    var s, w' := w.objs[o], DoVisit(w, o).value;
    var i := if s.trigger.None? then |w.log| - 1 else s.trigger.value;
    if s.trigger.None? {
      VisitFirst(v, w, s, o);
    } else {
      VisitAgain(v, w, s, o);
    }
    Visited(v, w', w'.objs[o], o, i);
  }

  lemma Visited(v: Variant, w: World, s: Sub, o: nat, i: nat)
    requires w.phase.Visiting? && w.phase.target == o && s.subID in w.phase.visited
    requires s.trigger == Some(i) && i < s.upto == |w.log|
    requires s.feed.submitted + w.phase.rest == Stream(v.r1, w.log, i, |w.log|)
    ensures JoinInv(v, w, s, o)
  {
  }

  lemma VisitFirst(v: Variant, w: World, s: Sub, o: nat)
    requires w.cache == Run(v.r1, w.log) && w.log != []
    requires JoinInv(v, w, s, o) && s.trigger.None?
    ensures s.feed.submitted + InitTags(w.cache) == Stream(v.r1, w.log, |w.log| - 1, |w.log|)
  {
    StreamAtTrigger(v.r1, w.log);
    assert s.feed.submitted + InitTags(w.cache) == InitTags(w.cache);
  }

  lemma VisitAgain(v: Variant, w: World, s: Sub, o: nat)
    requires JoinInv(v, w, s, o) && s.trigger.Some? && s.subID in w.subs
    requires w.phase.Visiting? && w.phase.rest == [] && s.subID !in w.phase.visited
    ensures s.trigger.value < s.upto && s.upto + 1 == |w.log|
    ensures s.feed.submitted + [w.log[|w.log| - 1]] == Stream(v.r1, w.log, s.trigger.value, |w.log|)
  {
    StreamGrows(v.r1, w.log, s.trigger.value, s.upto);
    assert s.feed.submitted + [] == s.feed.submitted;
  }

  lemma SubmitNextFeeds(v: Variant, w: World)
    requires DoSubmitNext(w).Some? && SubInv(v, w, w.phase.target)
    ensures SubInv(v, DoSubmitNext(w).value, w.phase.target)
  {
    var o := w.phase.target;
    var s := w.objs[o];
    SubmitKeepsOwn(s, w.phase.rest[0], o in w.subs);
    FrontMoves(s.feed.submitted, w.phase.rest);
  }

  lemma FrontMoves(a: seq<Tag>, b: seq<Tag>)
    requires b != []
    ensures a + [b[0]] + b[1..] == a + b
  {
  }

  lemma SubmitNextKeepsInv(v: Variant, w: World)
    requires Inv(v, w) && DoSubmitNext(w).Some?
    ensures Inv(v, DoSubmitNext(w).value)
  {
    var w' := DoSubmitNext(w).value;
    assert SubInv(v, w, w.phase.target);
    SubmitNextFeeds(v, w);
    forall q | 0 <= q < |w'.objs| ensures SubInv(v, w', q) {
      assert SubInv(v, w, q);
    }
    forall g | 0 <= g < |w'.closers| ensures CloserInv(v, w', w'.closers[g]) {
      assert CloserInv(v, w, w.closers[g]);
    }
  }

  lemma EndPublishKeepsInv(v: Variant, w: World)
    requires Inv(v, w) && DoEndPublish(w).Some?
    ensures Inv(v, DoEndPublish(w).value)
  {
    var w' := DoEndPublish(w).value;
    forall q | 0 <= q < |w'.objs| ensures SubInv(v, w', q) {
      assert SubInv(v, w, q);
      assert q in w.subs && q in w.phase.todo ==> q in w.phase.todo * w.subs.Keys;
    }
    forall g | 0 <= g < |w'.closers| ensures CloserInv(v, w', w'.closers[g]) {
      assert CloserInv(v, w, w.closers[g]);
    }
  }

  /** Losing keys of the registry. */
  lemma UnregisterKeepsInv(v: Variant, w: World, keys: set<nat>)
    requires Inv(v, w)
    ensures Inv(v, w.(subs := w.subs - keys))
  {
    var w' := w.(subs := w.subs - keys);
    forall q | 0 <= q < |w'.objs| ensures SubInv(v, w', q) {
      assert SubInv(v, w, q);
      if q in w.subs && q in keys {
        UnregisterKeepsShut(w.objs[q].shut);
      }
    }
    forall g | 0 <= g < |w'.closers| ensures CloserInv(v, w', w'.closers[g]) {
      assert CloserInv(v, w, w.closers[g]);
    }
  }

  lemma StepCloseKeepsInv(v: Variant, w: World, o: nat, c: nat)
    requires Inv(v, w) && DoStepClose(w, o, c).Some?
    ensures Inv(v, DoStepClose(w, o, c).value)
  {
    var s := w.objs[o];
    assert SubInv(v, w, o);
    CloseStepKeepsOwn(s, c, o in w.subs);
    if s.shut.calls[c] == MarkedClosed {
      // unregistering first and then letting the call leave reaches the same world
      UnregisterKeepsInv(v, w, {o});
      var u := w.(subs := w.subs - {o});
      assert SubInv(v, u, o);
      PutKeepsInv(v, u, o, s.(shut := CloseStep(s.shut, c)));
      assert DoStepClose(w, o, c).value == Put(u, o, s.(shut := CloseStep(s.shut, c)));
    } else {
      PutKeepsInv(v, w, o, s.(shut := CloseStep(s.shut, c)));
    }
  }

  lemma DeregisterKeepsInv(v: Variant, w: World)
    requires Inv(v, w)
    ensures Inv(v, DoDeregister(w))
  {
    UnregisterKeepsInv(v, w, w.subs.Keys);
    var u, w' := w.(subs := w.subs - w.subs.Keys), DoDeregister(w);
    assert u.subs == map[];
    forall q | 0 <= q < |w'.objs| ensures SubInv(v, w', q) {
      assert SubInv(v, u, q);
    }
    forall g | 0 <= g < |w'.closers| ensures CloserInv(v, w', w'.closers[g]) {
      if g < |w.closers| {
        assert CloserInv(v, u, u.closers[g]);
      } else {
        assert forall o :: o in w.subs.Values ==> exists k :: k in w.subs && w.subs[k] == o;
      }
    }
  }

  /** Replacing one closer. */
  lemma CloserKeepsInv(v: Variant, w: World, g: nat, x: Closer)
    requires Inv(v, w) && g < |w.closers| && CloserInv(v, w, x)
    ensures Inv(v, w.(closers := w.closers[g := x]))
  {
    var w' := w.(closers := w.closers[g := x]);
    forall q | 0 <= q < |w'.objs| ensures SubInv(v, w', q) {
      assert SubInv(v, w, q);
    }
    forall h | 0 <= h < |w'.closers| ensures CloserInv(v, w', w'.closers[h]) {
      assert h != g ==> CloserInv(v, w, w.closers[h]);
    }
  }

  lemma CloserTakesKeepsInv(v: Variant, w: World, g: nat, o: nat)
    requires Inv(v, w) && DoCloserTakes(v, w, g, o).Some?
    ensures Inv(v, DoCloserTakes(v, w, g, o).value)
  {
    var s := w.objs[o];
    assert SubInv(v, w, o) && CloserInv(v, w, w.closers[g]);
    BeginKeepsOwn(s, o in w.subs);
    PutKeepsInv(v, w, o, s.(shut := Begin(s.shut)));
    var u, x := Put(w, o, s.(shut := Begin(s.shut))), w.closers[g];
    assert CloserInv(v, u, u.closers[g]);
    if !v.r2 {
      assert exists k :: k in w.subs && w.subs[k] == o;
    }
    CloserKeepsInv(v, u, g, x.(done := x.done + {o}, waiting := Some((o, |s.shut.calls|))));
  }

  lemma CloserProceedsKeepsInv(v: Variant, w: World, g: nat)
    requires Inv(v, w) && DoCloserProceeds(w, g).Some?
    ensures Inv(v, DoCloserProceeds(w, g).value)
  {
    var x := w.closers[g];
    var (o, c) := x.waiting.value;
    assert CloserInv(v, w, x);
    assert SubInv(v, w, o);
    assert CallInv(w.objs[o].shut, o in w.subs, c);
    CloserKeepsInv(v, w, g, x.(waiting := None));
  }

  lemma StepKeepsInv(v: Variant, w: World, a: Act)
    requires Inv(v, w) && Next(v, w, a).Some?
    ensures Inv(v, Next(v, w, a).value)
  {
    match a
    case Register(hasConn) => RegisterKeepsInv(v, w, hasConn);
    case BeginPublish(t) => BeginPublishKeepsInv(v, w, t);
    case Visit(key) => VisitKeepsInv(v, w, key);
    case SubmitNext => SubmitNextKeepsInv(v, w);
    case EndPublish => EndPublishKeepsInv(v, w);
    case StepClose(o, c) => StepCloseKeepsInv(v, w, o, c);
    case Deregister => DeregisterKeepsInv(v, w);
    case CloserTakes(g, o) => CloserTakesKeepsInv(v, w, g, o);
    case CloserProceeds(g) => CloserProceedsKeepsInv(v, w, g);
    case CloserEnds(g) =>
      assert CloserInv(v, w, w.closers[g]);
      CloserKeepsInv(v, w, g, w.closers[g].(ended := true));
    case Local(o, l) =>
      assert SubInv(v, w, o);
      LocalKeepsOwn(w.objs[o], l, o in w.subs);
      PutKeepsInv(v, w, o, DoLocal(w.objs[o], l).value);
  }

  lemma {:induction false} RunKeepsInv(v: Variant, w: World, acts: seq<Act>)
    requires Inv(v, w) && Exec(v, w, acts).Some?
    ensures Inv(v, Exec(v, w, acts).value)
  {
    if acts != [] {
      RunKeepsInv(v, w, acts[..|acts| - 1]);
      StepKeepsInv(v, Exec(v, w, acts[..|acts| - 1]).value, acts[|acts| - 1]);
    }
  }

  lemma ReachableInv(v: Variant, acts: seq<Act>)
    requires Exec(v, INITIAL, acts).Some?
    ensures Inv(v, Exec(v, INITIAL, acts).value)
  {
    RunKeepsInv(v, INITIAL, acts);
  }
}
