/**
 One publication: the cache is updated, then every registered subscriber is initialised from it or
 submitted a view of the tag, each over buffers of its own.
 */
module Publishing {
  import opened Wrappers
  import opened Flv
  import TagCache
  import opened Views
  import opened Publisher
  import opened Subscriber
  import opened SubscriberRuns
  import opened SubscriberObject

  /** Tags over buffers of `bufs`, no two sharing one. */
  ghost predicate Over(tags: seq<FlvTag>, bufs: set<Buffer>) {
    && Apart(tags)
    && forall i :: 0 <= i < |tags| ==> tags[i].Sound() && (tags[i].Buf() != null ==> tags[i].Buf() in bufs)
  }

  /** Nobody has read from these. */
  ghost predicate Unmoved(bufs: set<Buffer>)
    reads bufs
  {
    forall b :: b in bufs ==> b.off == b.lo
  }

  lemma CopiesOverBuffers(tags: seq<FlvTag>)
    requires Copies(tags)
    ensures Over(tags, AllBuffers(tags)) && Unmoved(AllBuffers(tags))
  {
  }

  /** The queue `q` with more tags behind it, over buffers of `bufs`. */
  ghost predicate Extended(sub: Sub, q: seq<FlvTag>, bufs: set<Buffer>)
    reads sub
  {
    q <= sub.sendQueue && Over(sub.sendQueue[|q|..], bufs)
  }

  lemma ExtendedBy(sub: Sub, q: seq<FlvTag>, more: seq<FlvTag>, bufs: set<Buffer>)
    requires sub.sendQueue == q + more && Over(more, bufs)
    ensures Extended(sub, q, bufs)
  {
    assert (q + more)[|q|..] == more;
  }

  /** InitSub: true only for the publication that initialises the subscriber. What it queues are fresh
      views. */
  method InitSub(p: Pub, sub: Sub, ghost replay: seq<Tag>) returns (hasToInit: bool, ghost bufs: set<Buffer>)
    requires p.ReplayNow() == Some(replay) && sub.Valid()
    modifies sub
    ensures sub.initDone && hasToInit == !old(sub.initDone)
    ensures Submitted(sub, old(sub.feed), old(sub.shut), if hasToInit then replay else [])
    ensures Extended(sub, old(sub.sendQueue), bufs) && Unmoved(bufs) && fresh(bufs)
    ensures !hasToInit ==> Find(sub) == old(Find(sub))
    ensures p.ReplayNow() == Some(replay)
  {
    hasToInit := false;
    bufs := {};
    ghost var q := sub.sendQueue;
    if sub.initDone {
      ExtendedBy(sub, q, [], bufs);
    } else {
      sub.initDone := true;
      hasToInit := true;
      bufs := SubmitReplay(p, sub, replay);
    }
  }

  method SubmitReplay(p: Pub, sub: Sub, ghost replay: seq<Tag>) returns (ghost bufs: set<Buffer>)
    requires p.ReplayNow() == Some(replay) && sub.Valid()
    modifies sub`sendQueue, sub`feed, sub`shut
    ensures Submitted(sub, old(sub.feed), old(sub.shut), replay)
    ensures Extended(sub, old(sub.sendQueue), bufs) && Unmoved(bufs) && fresh(bufs)
    ensures p.ReplayNow() == Some(replay)
  {
    var initTags;
    initTags, bufs := FreshReplay(p, replay);
    SubmitEach(sub, initTags, bufs);
  }

  method FreshReplay(p: Pub, ghost replay: seq<Tag>) returns (initTags: seq<FlvTag>, ghost bufs: set<Buffer>)
    requires p.ReplayNow() == Some(replay)
    ensures AllMade(initTags) == replay && Over(initTags, bufs) && Unmoved(bufs) && fresh(bufs)
  {
    initTags := p.InitTags();
    bufs := AllBuffers(initTags);
    CopiesOverBuffers(initTags);
  }

  /** With nobody pulling, the first tags that fit are queued, as they are. */
  method SubmitEach(sub: Sub, tags: seq<FlvTag>, ghost bufs: set<Buffer>)
    requires sub.Valid() && Over(tags, bufs)
    modifies sub`sendQueue, sub`feed, sub`shut
    ensures Submitted(sub, old(sub.feed), old(sub.shut), AllMade(tags))
    ensures Extended(sub, old(sub.sendQueue), bufs)
  {
    ghost var fit: nat := 0;
    ghost var f, s, q := sub.feed, sub.shut, sub.sendQueue;
    for i := 0 to |tags|
      invariant Submitted(sub, f, s, AllMade(tags[..i]))
      invariant Fits(q, tags, i, fit, sub.sendQueue)
    {
      fit := SubmitNext(sub, tags, i, f, s, q, fit);
    }
    assert tags[..|tags|] == tags;
    ExtendedBy(sub, q, tags[..fit], bufs);
  }

  method SubmitNext(sub: Sub, tags: seq<FlvTag>, i: nat, ghost f: Feed, ghost s: Shut, ghost q: seq<FlvTag>,
                    ghost fit: nat) returns (ghost fit': nat)
    requires i < |tags| && Submitted(sub, f, s, AllMade(tags[..i])) && Fits(q, tags, i, fit, sub.sendQueue)
    modifies sub`sendQueue, sub`feed, sub`shut
    ensures Submitted(sub, f, s, AllMade(tags[..i + 1])) && Fits(q, tags, i + 1, fit', sub.sendQueue)
  {
    FitsNext(q, tags, i, fit, sub.sendQueue);
    MadeNext(f, tags, i);
    var startClose := sub.Submit(tags[i]);
    fit' := if startClose then fit else fit + 1;
  }

  /** Of the first `i` tags the first `fit` are queued, all of them unless the queue is full. */
  ghost predicate Fits(q: seq<FlvTag>, tags: seq<FlvTag>, i: nat, fit: nat, queue: seq<FlvTag>) {
    fit <= i <= |tags| && queue == q + tags[..fit] && (|queue| < QUEUE_LENGTH ==> fit == i)
  }

  lemma FitsNext(q: seq<FlvTag>, tags: seq<FlvTag>, i: nat, fit: nat, queue: seq<FlvTag>)
    requires Fits(q, tags, i, fit, queue) && i < |tags|
    ensures |queue| < QUEUE_LENGTH ==> Fits(q, tags, i + 1, fit + 1, queue + [tags[i]])
    ensures |queue| >= QUEUE_LENGTH ==> Fits(q, tags, i + 1, fit, queue)
  {
    if |queue| < QUEUE_LENGTH {
      assert tags[..fit] + [tags[fit]] == tags[..fit + 1];
    }
  }

  lemma MadeNext(f: Feed, tags: seq<FlvTag>, i: nat)
    requires i < |tags|
    ensures SubmitAll(f, AllMade(tags[..i + 1])) == Submit(SubmitAll(f, AllMade(tags[..i])), tags[i].made)
    ensures Overflows(f, AllMade(tags[..i + 1]))
            == Overflows(f, AllMade(tags[..i])) + if Full(SubmitAll(f, AllMade(tags[..i]))) then 1 else 0
  {
    assert tags[..i + 1] == tags[..i] + [tags[i]];
    AllMadeSnoc(tags[..i], tags[i]);
    SubmitAllSnoc(f, AllMade(tags[..i]), tags[i].made);
  }

  /** A subscriber found with feed `f` and closing half `s` was submitted the tags, each one that found
      the queue full starting a `Close` call. */
  ghost predicate Submitted(sub: Sub, f: Feed, s: Shut, tags: seq<Tag>)
    reads sub
  {
    sub.Valid() && sub.feed == SubmitAll(f, tags) && sub.shut == BeginMany(s, Overflows(f, tags))
  }

  /** What a visit finds of a subscriber, and what it leaves. */
  datatype Found = Found(feed: Feed, shut: Shut, initDone: bool, queue: seq<FlvTag>)

  ghost function Find(sub: Sub): Found
    reads sub
  {
    Found(sub.feed, sub.shut, sub.initDone, sub.sendQueue)
  }

  /** A visit: the subscriber is initialised, was submitted the replay or else the tag, and was handed tags
      over buffers of `bufs` only. */
  ghost predicate Served(f: Found, g: Found, replay: seq<Tag>, t: Tag, bufs: set<Buffer>) {
    var due := Due(f.initDone, replay, t);
    && g.initDone && g.feed == SubmitAll(f.feed, due) && g.shut == BeginMany(f.shut, Overflows(f.feed, due))
    && f.queue <= g.queue && Over(g.queue[|f.queue|..], bufs)
  }

  /** The loop body of `Publish`. */
  method VisitSub(p: Pub, sub: Sub, flv: FlvTag, ghost replay: seq<Tag>) returns (ghost bufs: set<Buffer>)
    requires p.ReplayNow() == Some(replay) && sub.Valid() && flv.Untouched()
    modifies sub
    ensures sub.Valid() && Served(old(Find(sub)), Find(sub), replay, flv.made, bufs)
    ensures Unmoved(bufs) && fresh(bufs)
    ensures p.ReplayNow() == Some(replay)
  {
    ghost var f := Find(sub);
    var hasToInit;
    hasToInit, bufs := InitSub(p, sub, replay);
    if !hasToInit {
      bufs := SubmitView(sub, flv);
    }
    IsServed(sub, f, replay, flv.made, bufs);
  }

  lemma IsServed(sub: Sub, f: Found, replay: seq<Tag>, t: Tag, bufs: set<Buffer>)
    requires sub.initDone && Submitted(sub, f.feed, f.shut, Due(f.initDone, replay, t))
    requires Extended(sub, f.queue, bufs)
    ensures Served(f, Find(sub), replay, t, bufs)
  {
  }

  /** A fresh view is queued, or nothing when the queue is full. */
  method SubmitView(sub: Sub, flv: FlvTag) returns (ghost bufs: set<Buffer>)
    requires sub.Valid() && flv.Untouched()
    modifies sub`sendQueue, sub`feed, sub`shut
    ensures Submitted(sub, old(sub.feed), old(sub.shut), [flv.made])
    ensures Extended(sub, old(sub.sendQueue), bufs) && Unmoved(bufs) && fresh(bufs)
  {
    var view;
    view, bufs := FreshView(flv);
    SubmitEach(sub, [view], bufs);
  }

  method FreshView(flv: FlvTag) returns (view: FlvTag, ghost bufs: set<Buffer>)
    requires flv.Untouched()
    ensures AllMade([view]) == [flv.made] && Over([view], bufs) && Unmoved(bufs) && fresh(bufs)
  {
    view := CloneView(flv);
    bufs := AllBuffers([view]);
    AllMadeSnoc([], view);
    assert [] + [view] == [view];
  }

  /** No two subscribers have a buffer in common, and all of them are in `all`. */
  ghost predicate Separate(given: map<Sub, set<Buffer>>, all: set<Buffer>) {
    forall a, b :: a in given && b in given ==> given[a] <= all && (a != b ==> given[a] !! given[b])
  }

  /** The cache half, which leaves the subscribers alone. */
  method UpdateCache(p: Pub, ghost subs: set<Sub>, flv: FlvTag, ghost found: map<Sub, Found>)
    returns (ghost replay: seq<Tag>)
    requires p.Valid() && flv.Untouched() && AllAre(subs, found)
    modifies p, p.arrays
    ensures p.ReplayNow() == Some(replay) && p.log == old(p.log) + [flv.made] && flv.Untouched()
    ensures AllAre(subs, found)
  {
    p.UpdateCache(flv);
    replay := TagCache.InitTags(p.View());
  }

  ghost predicate AllAre(subs: set<Sub>, now: map<Sub, Found>)
    reads subs
  {
    forall sub :: sub in subs ==> sub in now && sub.Valid() && Find(sub) == now[sub]
  }

  /** The subscribers of `todo` are as they were found, those with an entry in `given` were served. */
  ghost predicate Progress(todo: set<Sub>, found: map<Sub, Found>, now: map<Sub, Found>,
                           given: map<Sub, set<Buffer>>, all: set<Buffer>, replay: seq<Tag>, t: Tag)
  {
    && now.Keys == found.Keys == todo + given.Keys && todo !! given.Keys
    && (forall sub :: sub in todo ==> now[sub] == found[sub])
    && (forall sub :: sub in given ==> Served(found[sub], now[sub], replay, t, given[sub]))
    && Separate(given, all)
  }

  lemma ProgressStep(todo: set<Sub>, found: map<Sub, Found>, now: map<Sub, Found>,
                     given: map<Sub, set<Buffer>>, all: set<Buffer>, replay: seq<Tag>, t: Tag,
                     sub: Sub, g: Found, bufs: set<Buffer>)
    requires Progress(todo, found, now, given, all, replay, t) && sub in todo
    requires Served(now[sub], g, replay, t, bufs) && bufs !! all
    ensures Progress(todo - {sub}, found, now[sub := g], given[sub := bufs], all + bufs, replay, t)
  {
  }

  lemma AllWith(subs: set<Sub>, now: map<Sub, Found>, sub: Sub)
    requires AllAre(subs - {sub}, now) && sub.Valid()
    ensures AllAre(subs, now[sub := Find(sub)])
  {
  }

  /** One pass of the loop. */
  method VisitNext(p: Pub, ghost subs: set<Sub>, sub: Sub, flv: FlvTag, ghost replay: seq<Tag>,
                   ghost todo: set<Sub>, ghost found: map<Sub, Found>, ghost now: map<Sub, Found>,
                   ghost given: map<Sub, set<Buffer>>, ghost all: set<Buffer>)
    returns (ghost g: Found, ghost bufs: set<Buffer>)
    requires p.ReplayNow() == Some(replay) && flv.Untouched()
    requires sub in todo && todo <= subs && AllAre(subs, now) && Unmoved(all)
    requires Progress(todo, found, now, given, all, replay, flv.made)
    modifies sub
    ensures p.ReplayNow() == Some(replay) && flv.Untouched()
    ensures AllAre(subs, now[sub := g]) && Unmoved(all + bufs) && fresh(bufs)
    ensures Progress(todo - {sub}, found, now[sub := g], given[sub := bufs], all + bufs, replay, flv.made)
  {
    g, bufs := VisitAmong(p, subs, sub, flv, replay, now, all);
    ProgressStep(todo, found, now, given, all, replay, flv.made, sub, g, bufs);
  }

  method VisitAmong(p: Pub, ghost subs: set<Sub>, sub: Sub, flv: FlvTag, ghost replay: seq<Tag>,
                    ghost now: map<Sub, Found>, ghost all: set<Buffer>)
    returns (ghost g: Found, ghost bufs: set<Buffer>)
    requires p.ReplayNow() == Some(replay) && flv.Untouched() && sub in subs && AllAre(subs, now) && Unmoved(all)
    modifies sub
    ensures p.ReplayNow() == Some(replay) && flv.Untouched()
    ensures AllAre(subs, now[sub := g]) && Served(now[sub], g, replay, flv.made, bufs)
    ensures Unmoved(all + bufs) && fresh(bufs)
  {
    assert AllAre(subs - {sub}, now);
    bufs := VisitSub(p, sub, flv, replay);
    g := Find(sub);
    AllWith(subs, now, sub);
  }

  /** The loop of `Publish`, in any order. */
  method VisitAll(p: Pub, subs: set<Sub>, flv: FlvTag, ghost replay: seq<Tag>, ghost found: map<Sub, Found>)
    returns (ghost now: map<Sub, Found>, ghost given: map<Sub, set<Buffer>>, ghost all: set<Buffer>)
    requires p.ReplayNow() == Some(replay) && flv.Untouched() && AllAre(subs, found) && found.Keys == subs
    modifies subs
    ensures p.ReplayNow() == Some(replay)
    ensures AllAre(subs, now) && Progress({}, found, now, given, all, replay, flv.made)
    ensures Unmoved(all) && fresh(all)
  {
    var todo := subs;
    now, given, all := found, map[], {};
    while todo != {}
      invariant todo <= subs && p.ReplayNow() == Some(replay) && flv.Untouched()
      invariant AllAre(subs, now) && Progress(todo, found, now, given, all, replay, flv.made)
      invariant Unmoved(all) && fresh(all)
      decreases todo
    {
      var sub :| sub in todo;
      ghost var g, bufs := VisitNext(p, subs, sub, flv, replay, todo, found, now, given, all);
      now, given, all := now[sub := g], given[sub := bufs], all + bufs;
      todo := todo - {sub};
    }
  }

  /** The cache first, then the subscribers: each is served, over buffers of its own, which neither another
      subscriber nor the cache nor the published tag has, and which nobody has read from. */
  method PublishTo(p: Pub, subs: set<Sub>, flv: FlvTag, ghost found: map<Sub, Found>)
    returns (ghost replay: seq<Tag>, ghost now: map<Sub, Found>, ghost given: map<Sub, set<Buffer>>,
             ghost all: set<Buffer>)
    requires p.Valid() && flv.Untouched() && AllAre(subs, found) && found.Keys == subs
    modifies p, p.arrays, subs
    ensures p.ReplayNow() == Some(replay) && p.log == old(p.log) + [flv.made]
    ensures AllAre(subs, now) && Progress({}, found, now, given, all, replay, flv.made)
    ensures Unmoved(all) && fresh(all) && all !! p.bufs && flv.Buf() !in all
  {
    replay := UpdateCache(p, subs, flv, found);
    now, given, all := VisitAll(p, subs, flv, replay, found);
  }

  lemma AllDone(subs: set<Sub>, found: map<Sub, Found>, now: map<Sub, Found>, given: map<Sub, set<Buffer>>,
                all: set<Buffer>, replay: seq<Tag>, t: Tag)
    requires AllAre(subs, now) && found.Keys == subs && Progress({}, found, now, given, all, replay, t)
    ensures given.Keys == subs && Separate(given, all)
    ensures forall sub :: sub in subs ==> sub.Valid() && Served(found[sub], Find(sub), replay, t, given[sub])
  {
  }

  /** What the subscribers are before a publication. */
  ghost method FindAll(subs: set<Sub>) returns (found: map<Sub, Found>)
    requires forall sub :: sub in subs ==> sub.Valid()
    ensures AllAre(subs, found) && found.Keys == subs
    ensures forall sub :: sub in subs ==> found[sub] == Find(sub)
  {
    found := map sub | sub in subs :: Find(sub);
  }
}
