/**
 The summaries used by the objects are runs of the broadcast protocol: what one visit of a publication submits,
 and what one pass of the sender does, step by step and with nothing in between.
 */
module PublishSteps {
  import opened Wrappers
  import opened Sequences
  import opened Flv
  import opened TagCache
  import opened Subscriber
  import opened SubscriberRuns
  import opened Broadcast
  import opened BroadcastTheorems

  lemma {:induction false} SubmitAllFront(f: Feed, t: Tag, tags: seq<Tag>)
    ensures SubmitAll(f, [t] + tags) == SubmitAll(Submit(f, t), tags)
    ensures Overflows(f, [t] + tags) == (if Full(f) then 1 else 0) + Overflows(Submit(f, t), tags)
  {
    if tags == [] {
      assert [t] + tags == [] + [t];
      SubmitAllSnoc(f, [], t);
    } else {
      FrontOfConcat([t], tags);
      SubmitAllFront(f, t, tags[..|tags| - 1]);
    }
  }

  lemma {:induction false} BeginManyFront(s: Shut, n: nat)
    ensures BeginMany(Begin(s), n) == BeginMany(s, n + 1)
  {
    if n > 0 {
      BeginManyFront(s, n - 1);
    }
  }

  /** Beginning calls adds that many and changes nothing else. */
  lemma {:induction false} BeginManyAdds(s: Shut, n: nat)
    ensures |BeginMany(s, n).calls| == |s.calls| + n && s.calls <= BeginMany(s, n).calls
    ensures BeginMany(s, n) == s.(calls := BeginMany(s, n).calls)
    ensures forall c :: |s.calls| <= c < |s.calls| + n ==> BeginMany(s, n).calls[c] == Begun
  {
    if n > 0 {
      BeginManyAdds(s, n - 1);
    }
  }

  predicate OnlySubmits(acts: seq<Act>) {
    forall i :: 0 <= i < |acts| ==> acts[i] == SubmitNext
  }

  /** The steps of the loop that submits what is left come to `SubmitAll` with its overflows. */
  lemma {:induction false} RestIsSubmitted(v: Variant, acts: seq<Act>) returns (more: seq<Act>)
    requires Exec(v, INITIAL, acts).Some?
    requires var w := Exec(v, INITIAL, acts).value; w.phase.Visiting? && w.phase.target < |w.objs|
    ensures OnlySubmits(more) && Exec(v, INITIAL, acts + more).Some?
    ensures var w, w' := Exec(v, INITIAL, acts).value, Exec(v, INITIAL, acts + more).value;
      var o := w.phase.target;
      && |more| == |w.phase.rest| && o < |w'.objs|
      && w'.objs[o].feed == SubmitAll(w.objs[o].feed, w.phase.rest)
      && w'.objs[o].shut == BeginMany(w.objs[o].shut, Overflows(w.objs[o].feed, w.phase.rest))
    decreases Exec(v, INITIAL, acts).value.phase.rest
  {
    var w := Exec(v, INITIAL, acts).value;
    var rest, o := w.phase.rest, w.phase.target;
    if rest == [] {
      more := [];
      assert acts + more == acts;
    } else {
      SubmitsOne(v, w);
      var longer := Then(v, acts, SubmitNext);
      var others := RestIsSubmitted(v, longer);
      more := [SubmitNext] + others;
      ConcatAssoc(acts, [SubmitNext], others);
      assert [rest[0]] + rest[1..] == rest;
      SubmitAllFront(w.objs[o].feed, rest[0], rest[1..]);
      BeginManyFront(w.objs[o].shut, Overflows(Submit(w.objs[o].feed, rest[0]), rest[1..]));
    }
  }

  lemma SubmitsOne(v: Variant, w: World)
    requires w.phase.Visiting? && w.phase.target < |w.objs| && w.phase.rest != []
    ensures Next(v, w, SubmitNext).Some?
    ensures var w', o := Next(v, w, SubmitNext).value, w.phase.target;
      && w'.phase == w.phase.(rest := w.phase.rest[1..]) && |w'.objs| == |w.objs|
      && w'.objs[o].feed == Submit(w.objs[o].feed, w.phase.rest[0])
      && w'.objs[o].shut == if Full(w.objs[o].feed) then Begin(w.objs[o].shut) else w.objs[o].shut
  {
  }

  /** One whole visit of a publication is what the objects promise: the subscriber is submitted what is due,
      with a `Close` begun for each overflow. */
  lemma VisitIsServing(v: Variant, acts: seq<Act>, key: nat) returns (more: seq<Act>)
    requires Exec(v, INITIAL, acts).Some? && Next(v, Exec(v, INITIAL, acts).value, Visit(key)).Some?
    ensures more != [] && more[0] == Visit(key) && OnlySubmits(more[1..]) && Exec(v, INITIAL, acts + more).Some?
    ensures Exec(v, INITIAL, acts).value.subs[key] < |Exec(v, INITIAL, acts + more).value.objs|
    ensures var w, w' := Exec(v, INITIAL, acts).value, Exec(v, INITIAL, acts + more).value;
      var o := w.subs[key];
      var s, s' := w.objs[o], w'.objs[o];
      var due := Due(s.trigger.Some?, InitTags(w.cache), w.log[|w.log| - 1]);
      && s'.trigger.Some? && s'.feed == SubmitAll(s.feed, due)
      && s'.shut == BeginMany(s.shut, Overflows(s.feed, due))
  {
    var visited := Then(v, acts, Visit(key));
    var rest := RestIsSubmitted(v, visited);
    TriggerStays(v, visited, rest, Exec(v, INITIAL, acts).value.subs[key]);
    more := [Visit(key)] + rest;
    ConcatAssoc(acts, [Visit(key)], rest);
  }

  lemma TriggerStays(v: Variant, acts: seq<Act>, more: seq<Act>, o: nat)
    requires Exec(v, INITIAL, acts).Some? && Exec(v, INITIAL, acts + more).Some?
    requires o < |Exec(v, INITIAL, acts).value.objs| && Exec(v, INITIAL, acts).value.objs[o].trigger.Some?
    ensures o < |Exec(v, INITIAL, acts + more).value.objs| && Exec(v, INITIAL, acts + more).value.objs[o].trigger.Some?
  {
    RunEvolves(v, acts, more, o);
  }

  /** One pass of the sender that finds a tag, as steps: pull, check, and unless closed call back. */
  lemma PassIsSteps(s: Sub)
    requires s.sender == Waiting && s.feed.queue != []
    ensures DoLocal(s, PullTag).Some? && DoLocal(DoLocal(s, PullTag).value, CheckClosed).Some?
    ensures var checked := DoLocal(DoLocal(s, PullTag).value, CheckClosed).value;
      if s.shut.closed
      then checked == s.(feed := Passing(s.feed, true))
      else DoLocal(checked, CallBack).Some?
           && DoLocal(DoLocal(checked, CallBack).value, CallbackReturns) == Some(s.(feed := Passing(s.feed, false)))
  {
  }
}
