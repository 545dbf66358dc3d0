/**
 Progress of the broadcast protocol: `Close` calls never block each other for good, every schedule of
 their steps is short, an overflow can always be carried to a closed and unregistered subscriber, and a
 closer goroutine to its end.
 */
module BroadcastProgress {
  import opened Wrappers
  import opened Sequences
  import opened Subscriber
  import opened Broadcast
  import opened BroadcastInvariant
  import opened BroadcastTheorems

  /** In every reachable world with an unfinished `Close` call, some call of that subscriber can step. */
  lemma CloseProgress(v: Variant, acts: seq<Act>, o: nat, c: nat) returns (d: nat)
    requires Exec(v, INITIAL, acts).Some? && o < |Exec(v, INITIAL, acts).value.objs|
    requires var s := Exec(v, INITIAL, acts).value.objs[o].shut; c < |s.calls| && s.calls[c] != Returned
    ensures Next(v, Exec(v, INITIAL, acts).value, StepClose(o, d)).Some?
  {
    ReachableInv(v, acts);
    var w := Exec(v, INITIAL, acts).value;
    assert SubInv(v, w, o);
    d := SomeCallSteps(w.objs[o].shut, w.objs[o].subID in w.subs, c);
    StepsInWorld(v, w, o, d);
  }

  lemma StepsInWorld(v: Variant, w: World, o: nat, d: nat)
    requires o < |w.objs| && CanClose(w.objs[o].shut, d)
    ensures Next(v, w, StepClose(o, d)).Some?
  {
  }

  lemma CloseStepInWorld(v: Variant, w: World, o: nat, d: nat)
    requires Next(v, w, StepClose(o, d)).Some?
    ensures var w' := Next(v, w, StepClose(o, d)).value;
      && o < |w.objs| == |w'.objs| && w'.closers == w.closers
      && |w'.objs[o].shut.calls| == |w.objs[o].shut.calls|
      && Remaining(w'.objs[o].shut.calls) < Remaining(w.objs[o].shut.calls)
  {
    CloseStepShrinks(w.objs[o].shut, d);
    CloseStepGrows(w.objs[o].shut, d);
  }

  predicate OnlyCloses(acts: seq<Act>, o: nat) {
    forall i :: 0 <= i < |acts| ==> acts[i].StepClose? && acts[i].o == o
  }

  /** Every schedule of the calls under way is finite: each step uses up one of the steps left. */
  lemma {:induction false} CloseStepsBounded(v: Variant, acts: seq<Act>, more: seq<Act>, o: nat)
    requires Exec(v, INITIAL, acts).Some? && Exec(v, INITIAL, acts + more).Some? && OnlyCloses(more, o)
    requires o < |Exec(v, INITIAL, acts).value.objs|
    ensures var w, w' := Exec(v, INITIAL, acts).value, Exec(v, INITIAL, acts + more).value;
      && o < |w'.objs| && w'.closers == w.closers
      && |w'.objs[o].shut.calls| == |w.objs[o].shut.calls|
      && |more| + Remaining(w'.objs[o].shut.calls) <= Remaining(w.objs[o].shut.calls) <= 7 * |w.objs[o].shut.calls|
    decreases |more|
  {
    RemainingAtMost(Exec(v, INITIAL, acts).value.objs[o].shut.calls);
    if more == [] {
      assert acts + more == acts;
    } else {
      var front, a := more[..|more| - 1], more[|more| - 1];
      FrontOfConcat(acts, more);
      CloseStepsBounded(v, acts, front, o);
      CloseStepInWorld(v, Exec(v, INITIAL, acts + front).value, o, a.c);
    }
  }

  predicate AllReturned(s: Shut) {
    forall c :: 0 <= c < |s.calls| ==> s.calls[c] == Returned
  }

  /** All calls under way can be run to their returns. */
  lemma {:induction false} ClosesReturn(v: Variant, acts: seq<Act>, o: nat) returns (more: seq<Act>)
    requires Exec(v, INITIAL, acts).Some? && o < |Exec(v, INITIAL, acts).value.objs|
    ensures OnlyCloses(more, o) && Exec(v, INITIAL, acts + more).Some?
    ensures o < |Exec(v, INITIAL, acts + more).value.objs|
    ensures AllReturned(Exec(v, INITIAL, acts + more).value.objs[o].shut)
    decreases Remaining(Exec(v, INITIAL, acts).value.objs[o].shut.calls)
  {
    var s := Exec(v, INITIAL, acts).value.objs[o].shut;
    if AllReturned(s) {
      more := [];
      assert acts + more == acts;
    } else {
      var c :| 0 <= c < |s.calls| && s.calls[c] != Returned;
      var d := CloseProgress(v, acts, o, c);
      var longer := Then(v, acts, StepClose(o, d));
      CloseStepInWorld(v, Exec(v, INITIAL, acts).value, o, d);
      var rest := ClosesReturn(v, longer, o);
      more := [StepClose(o, d)] + rest;
      ConcatAssoc(acts, [StepClose(o, d)], rest);
    }
  }

  /** Then a subscriber that had a call is closed and in no registry. */
  lemma ClosesFinish(v: Variant, acts: seq<Act>, o: nat) returns (more: seq<Act>)
    requires Exec(v, INITIAL, acts).Some? && o < |Exec(v, INITIAL, acts).value.objs|
    ensures OnlyCloses(more, o) && Exec(v, INITIAL, acts + more).Some?
    ensures |more| <= 7 * |Exec(v, INITIAL, acts).value.objs[o].shut.calls|
    ensures var w, w' := Exec(v, INITIAL, acts).value, Exec(v, INITIAL, acts + more).value;
      && o < |w'.objs| && AllReturned(w'.objs[o].shut) && w'.closers == w.closers
      && |w'.objs[o].shut.calls| == |w.objs[o].shut.calls|
      && (w.objs[o].shut.calls != [] ==> w'.objs[o].shut.closed && o !in w'.subs.Values)
  {
    more := ClosesReturn(v, acts, o);
    CloseStepsBounded(v, acts, more, o);
    ReturnedIsClosed(v, acts + more, o);
  }

  lemma ReturnedIsClosed(v: Variant, acts: seq<Act>, o: nat)
    requires Exec(v, INITIAL, acts).Some? && o < |Exec(v, INITIAL, acts).value.objs|
    requires AllReturned(Exec(v, INITIAL, acts).value.objs[o].shut)
    ensures var w := Exec(v, INITIAL, acts).value;
      w.objs[o].shut.calls != [] ==> w.objs[o].shut.closed && o !in w.subs.Values
  {
    ReachableInv(v, acts);
    CloseExactlyOnce(v, acts, o);
    var w := Exec(v, INITIAL, acts).value;
    assert SubInv(v, w, o);
    var s := w.objs[o].shut;
    if s.calls != [] {
      assert CallInv(s, w.objs[o].subID in w.subs, 0);
      assert 0 in s.returned;
    }
  }

  /** A dropped tag costs the subscriber its registration: from any reachable world after an overflow,
      the calls the overflow started can be run, in at most seven steps each, to the end, where the
      subscriber is closed, with its connection, and in no registry. */
  lemma OverflowEndsClosed(v: Variant, acts: seq<Act>, o: nat) returns (more: seq<Act>)
    requires Exec(v, INITIAL, acts).Some? && o < |Exec(v, INITIAL, acts).value.objs|
    requires var f := Exec(v, INITIAL, acts).value.objs[o].feed; f.accepted != f.submitted
    ensures OnlyCloses(more, o) && Exec(v, INITIAL, acts + more).Some?
    ensures |more| <= 7 * |Exec(v, INITIAL, acts).value.objs[o].shut.calls|
    ensures var w' := Exec(v, INITIAL, acts + more).value;
      && o < |w'.objs| && w'.objs[o].shut.closed && o !in w'.subs.Values
      && w'.objs[o].shut.connCloses == (if w'.objs[o].shut.hadConn then 1 else 0)
  {
    QueueConservation(v, acts, o);
    more := ClosesFinish(v, acts, o);
    CloseExactlyOnce(v, acts + more, o);
    ReachableInv(v, acts + more);
    var w' := Exec(v, INITIAL, acts + more).value;
    assert SubInv(v, w', o);
    assert CallInv(w'.objs[o].shut, w'.objs[o].subID in w'.subs, 0);
    assert 0 in w'.objs[o].shut.returned;
  }

  // ---------------------------------------------------------------- closer goroutines

  /** The run `all` extends `acts` and keeps what goroutine `g` is to close. */
  predicate Extends(v: Variant, acts: seq<Act>, all: seq<Act>, g: nat)
    requires Exec(v, INITIAL, acts).Some? && g < |Exec(v, INITIAL, acts).value.closers|
  {
    && acts <= all && Exec(v, INITIAL, all).Some?
    && var w, w' := Exec(v, INITIAL, acts).value, Exec(v, INITIAL, all).value;
    g < |w'.closers| && w'.closers[g].snapshot == w.closers[g].snapshot
  }

  lemma AwaitedExists(v: Variant, acts: seq<Act>, g: nat)
    requires Exec(v, INITIAL, acts).Some? && g < |Exec(v, INITIAL, acts).value.closers|
    requires Exec(v, INITIAL, acts).value.closers[g].waiting.Some?
    ensures var w := Exec(v, INITIAL, acts).value;
      var (o, c) := w.closers[g].waiting.value;
      o < |w.objs| && c < |w.objs[o].shut.calls|
  {
    ReachableInv(v, acts);
    var w := Exec(v, INITIAL, acts).value;
    assert CloserInv(v, w, w.closers[g]);
  }

  /** The call the goroutine waits for can return, and the goroutine go on. */
  lemma CloserGoesOn(v: Variant, acts: seq<Act>, g: nat) returns (all: seq<Act>)
    requires Exec(v, INITIAL, acts).Some? && g < |Exec(v, INITIAL, acts).value.closers|
    requires Exec(v, INITIAL, acts).value.closers[g].waiting.Some?
    ensures Extends(v, acts, all, g)
    ensures var x := Exec(v, INITIAL, acts).value.closers[g];
      Exec(v, INITIAL, all).value.closers[g] == x.(waiting := None)
  {
    AwaitedExists(v, acts, g);
    var (o, c) := Exec(v, INITIAL, acts).value.closers[g].waiting.value;
    var more := ClosesFinish(v, acts, o);
    ProceedsInWorld(v, Exec(v, INITIAL, acts + more).value, g);
    all := Then(v, acts + more, CloserProceeds(g));
  }

  lemma ProceedsInWorld(v: Variant, w: World, g: nat)
    requires g < |w.closers| && w.closers[g].waiting.Some?
    requires var (o, c) := w.closers[g].waiting.value;
      o < |w.objs| && c < |w.objs[o].shut.calls| && AllReturned(w.objs[o].shut)
    ensures Next(v, w, CloserProceeds(g)).Some?
    ensures Next(v, w, CloserProceeds(g)).value.closers == w.closers[g := w.closers[g].(waiting := None)]
  {
    var (o, c) := w.closers[g].waiting.value;
    assert w.objs[o].shut.calls[c] == Returned;
  }

  lemma TakesInWorld(v: Variant, w: World, g: nat, o: nat)
    requires v.r2 && g < |w.closers| && o < |w.objs|
    requires var x := w.closers[g]; !x.ended && x.waiting.None? && o in x.snapshot && o !in x.done
    ensures Next(v, w, CloserTakes(g, o)).Some?
    ensures var x, w' := w.closers[g], Next(v, w, CloserTakes(g, o)).value;
      && g < |w'.closers| && w'.closers[g].snapshot == x.snapshot
      && Unfinished(w'.closers[g]) < Unfinished(x)
  {
    var x := w.closers[g];
    FewerLeft(x.snapshot - (x.done + {o}), x.snapshot - x.done);
  }

  function Unfinished(x: Closer): nat {
    2 * |x.snapshot - x.done| + if x.waiting.Some? then 1 else 0
  }

  /** Under R2 the goroutine can turn to the next subscriber of its snapshot. */
  lemma CloserTurns(v: Variant, acts: seq<Act>, g: nat, o: nat) returns (all: seq<Act>)
    requires v.r2 && Exec(v, INITIAL, acts).Some? && g < |Exec(v, INITIAL, acts).value.closers|
    requires var x := Exec(v, INITIAL, acts).value.closers[g];
      !x.ended && x.waiting.None? && o in x.snapshot && o !in x.done
    ensures Extends(v, acts, all, g)
    ensures Unfinished(Exec(v, INITIAL, all).value.closers[g]) < Unfinished(Exec(v, INITIAL, acts).value.closers[g])
  {
    ReachableInv(v, acts);
    var w := Exec(v, INITIAL, acts).value;
    var x := w.closers[g];
    assert CloserInv(v, w, x);
    TakesInWorld(v, w, g, o);
    all := Then(v, acts, CloserTakes(g, o));
  }

  /** From any reachable world every closer goroutine can be run to its end. */
  lemma {:induction false} CloserCanEnd(v: Variant, acts: seq<Act>, g: nat) returns (all: seq<Act>)
    requires Exec(v, INITIAL, acts).Some? && g < |Exec(v, INITIAL, acts).value.closers|
    ensures Extends(v, acts, all, g) && Exec(v, INITIAL, all).value.closers[g].ended
    decreases Unfinished(Exec(v, INITIAL, acts).value.closers[g])
  {
    var w := Exec(v, INITIAL, acts).value;
    var x := w.closers[g];
    if x.ended {
      all := acts;
    } else if x.waiting.Some? {
      var on := CloserGoesOn(v, acts, g);
      all := CloserCanEnd(v, on, g);
    } else if v.r2 && exists o :: o in x.snapshot && o !in x.done {
      var o :| o in x.snapshot && o !in x.done;
      var taken := CloserTurns(v, acts, g, o);
      all := CloserCanEnd(v, taken, g);
    } else {
      all := Then(v, acts, CloserEnds(g));
    }
  }

  lemma FewerLeft(a: set<nat>, b: set<nat>)
    ensures a < b ==> |a| < |b|
  {
    if a < b {
      assert b == a + (b - a);
    }
  }

  /** Under R2 a deregistration can always be carried through: every subscriber registered then closed,
      none of them registered. */
  lemma DeregistrationCanComplete(v: Variant, acts: seq<Act>, g: nat) returns (all: seq<Act>)
    requires v.r2 && Exec(v, INITIAL, acts).Some? && g < |Exec(v, INITIAL, acts).value.closers|
    ensures Extends(v, acts, all, g)
    ensures var w' := Exec(v, INITIAL, all).value;
      forall o :: o in Exec(v, INITIAL, acts).value.closers[g].snapshot ==>
        o < |w'.objs| && w'.objs[o].shut.closed && o !in w'.subs.Values
  {
    all := CloserCanEnd(v, acts, g);
    DeregistrationComplete(v, all, g);
  }
}
