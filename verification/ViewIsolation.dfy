/**
 View isolation: however publications, replays and reads of handed-out tags interleave, views that share
 one byte array behave like independent copies. The pure side plays a script on copies; the heap side
 plays it on a publisher and shared buffers, and is proved to leave exactly the same unread tags.
 */
module ViewIsolation {
  import opened Wrappers
  import opened Flv
  import opened TagCache
  import opened Views
  import opened Publisher

  /** Publish a tag, which becomes the current one; hand out one more view of the current tag, as the
      loop of a publication does for one subscriber after the other; replay the cache to a new subscriber;
      or read up to `n` bytes of the `k`-th tag handed out so far. Any of these may come between two
      others, reads between the views of one publication in particular. */
  datatype Op = PublishTag(tag: Tag) | HandOut | Replay | Consume(k: nat, n: nat)

  /** The published log, and what is unread of every tag handed out. */
  datatype Play = Play(log: seq<Tag>, handed: seq<Tag>)

  function Payload(t: Tag): seq<Byte> {
    match t.data
    case ScriptData(_) => []
    case AudioData(_, p) => p
    case VideoData(_, _, p) => p
  }

  /** A tag whose payload has lost its first bytes; script data has no payload to lose. */
  function Drop(t: Tag, n: nat): Tag {
    var k := if n <= |Payload(t)| then n else |Payload(t)|;
    match t.data
    case ScriptData(_) => t
    case AudioData(packet, p) => t.(data := AudioData(packet, p[k..]))
    case VideoData(frame, packet, p) => t.(data := VideoData(frame, packet, p[k..]))
  }

  /** One operation on independent copies: every clone starts with the full published payload. */
  function PlayOp(r1: bool, s: Play, op: Op): Play {
    match op
    case PublishTag(t) => s.(log := s.log + [t])
    case HandOut => if s.log == [] then s else s.(handed := s.handed + [s.log[|s.log| - 1]])
    case Replay => s.(handed := s.handed + InitTags(Run(r1, s.log)))
    case Consume(k, n) => if k >= |s.handed| then s else s.(handed := s.handed[k := Drop(s.handed[k], n)])
  }

  function PlayAll(r1: bool, ops: seq<Op>): Play {
    if ops == [] then Play([], []) else PlayOp(r1, PlayAll(r1, ops[..|ops| - 1]), ops[|ops| - 1])
  }

  /** Reading from one tag leaves all others alone, and of that one takes only the front of the payload. */
  lemma ConsumeTouchesOne(r1: bool, s: Play, k: nat, n: nat)
    ensures var s' := PlayOp(r1, s, Consume(k, n));
      && s'.log == s.log && |s'.handed| == |s.handed|
      && (forall i :: 0 <= i < |s.handed| && i != k ==> s'.handed[i] == s.handed[i])
      && (k < |s.handed| ==>
            && s'.handed[k].timestamp == s.handed[k].timestamp
            && var p := Payload(s.handed[k]);
               Payload(s'.handed[k]) == p[if n < |p| then n else |p|..])
  {
  }

  lemma DropMore(t: Tag, a: nat, b: nat)
    ensures Drop(Drop(t, a), b) == Drop(t, a + b)
  {
  }

  /** What the reads of the `k`-th tag handed out asked for so far. */
  function Eaten(r1: bool, ops: seq<Op>, k: nat): nat {
    if ops == [] then 0
    else
      var front, op := ops[..|ops| - 1], ops[|ops| - 1];
      Eaten(r1, front, k)
      + if op.Consume? && op.k == k && k < |PlayAll(r1, front).handed| then op.n else 0
  }

  /** Every replayed tag is a published one. */
  lemma ReplayedPublished(r1: bool, log: seq<Tag>, t: Tag)
    requires t in InitTags(Run(r1, log))
    ensures t in log
  {
    CacheRefinesLog(r1, log);
    var c := Run(r1, log);
    ReplayedFrom(c, t);
    assert forall x :: x in BeforeKey(log) ==> x in log;
    LastTagIn(AvcHeader, BeforeKey(log));
    LastTagIn(AacHeader, BeforeKey(log));
    LastTagIn(AvcHeader, log);
    LastTagIn(AacHeader, log);
    LastTagIn(KeyFrame, log);
  }

  lemma ReplayedFrom(c: Cache, t: Tag)
    requires t in InitTags(c)
    ensures Some(t) in {c.avcBefore, c.aacBefore, c.avcAfter, c.aacAfter, c.lastKey} || t in OrEmpty(c.since)
  {
  }

  lemma LastTagIn(m: Mark, log: seq<Tag>)
    ensures LastTag(m, log).Some? ==> LastTag(m, log).value in log
  {
  }

  /** One operation: an earlier tag changes only when read, a new one starts as it was published. */
  lemma HandedStep(r1: bool, s: Play, op: Op, k: nat)
    requires k < |PlayOp(r1, s, op).handed|
    ensures forall t :: t in s.log ==> t in PlayOp(r1, s, op).log
    ensures k < |s.handed| ==>
              PlayOp(r1, s, op).handed[k] == Drop(s.handed[k], if op.Consume? && op.k == k then op.n else 0)
    ensures k >= |s.handed| ==> PlayOp(r1, s, op).handed[k] in PlayOp(r1, s, op).log && !op.Consume?
  {
    if k >= |s.handed| && op.Replay? {
      ReplayedPublished(r1, s.log, PlayOp(r1, s, op).handed[k]);
    }
  }

  /** Whatever the script, every tag handed out is a published one less what was read of it: it started
      with the full payload, and nothing done to any other tag ever shows. */
  lemma {:induction false} HandedIsPublished(r1: bool, ops: seq<Op>, k: nat) returns (t: Tag)
    requires k < |PlayAll(r1, ops).handed|
    ensures t in PlayAll(r1, ops).log && PlayAll(r1, ops).handed[k] == Drop(t, Eaten(r1, ops, k))
  {
    var front, op := ops[..|ops| - 1], ops[|ops| - 1];
    HandedStep(r1, PlayAll(r1, front), op, k);
    if k < |PlayAll(r1, front).handed| {
      t := HandedIsPublished(r1, front, k);
      DropMore(t, Eaten(r1, front, k), if op.Consume? && op.k == k then op.n else 0);
    } else {
      t := PlayAll(r1, ops).handed[k];
      EatenLater(r1, front, k);
      DropNothing(t);
    }
  }

  lemma DropNothing(t: Tag)
    ensures Drop(t, 0) == t
  {
  }

  lemma {:induction false} EatenLater(r1: bool, ops: seq<Op>, k: nat)
    requires k >= |PlayAll(r1, ops).handed|
    ensures Eaten(r1, ops, k) == 0
  {
    if ops != [] {
      EatenLater(r1, ops[..|ops| - 1], k);
    }
  }

  // ---------------------------------------------------------------- the heap side

  /** What a receiver would read of a tag object now. */
  ghost predicate ReadsAs(t: FlvTag, v: Tag)
    reads t.Buf()
  {
    && t.Sound()
    && (t.Buf() != null ==> t.Buf().Valid())
    && t.timestamp == v.timestamp
    && match (t.body, v.data)
       case (ScriptBody(o), ScriptData(o')) => o == o'
       case (AudioBody(p, b), AudioData(p', payload)) => p == p' && b.Unread() == payload
       case (VideoBody(f, p, b), VideoData(f', p', payload)) => f == f' && p == p' && b.Unread() == payload
       case _ => false
  }

  /** The tags handed out read as they should; `own` holds their buffers, one each. */
  ghost predicate HandedOut(tags: seq<FlvTag>, values: seq<Tag>, own: set<Buffer>)
    reads own
  {
    && |tags| == |values|
    && (forall i :: 0 <= i < |tags| ==> (tags[i].Buf() != null ==> tags[i].Buf() in own) && ReadsAs(tags[i], values[i]))
    && Apart(tags)
  }

  lemma UntouchedReadsAsMade(t: FlvTag)
    requires t.Untouched()
    ensures ReadsAs(t, t.made)
  {
  }

  /** The tag object being published, of which nobody was given the buffer. */
  ghost predicate Current(flv: FlvTag?, log: seq<Tag>, own: set<Buffer>)
    reads if flv == null then null else flv.Buf()
  {
    && (flv == null <==> log == [])
    && (flv != null ==> flv.Untouched() && flv.made == log[|log| - 1] && flv.Buf() !in own)
  }

  /** The publisher, the current tag and the tags handed out are where playing on copies has arrived;
      the cache owns none of the buffers handed out. */
  ghost predicate InStep(p: Pub, flv: FlvTag?, tags: seq<FlvTag>, own: set<Buffer>, s: Play)
    reads p, p.bufs, p.arrays, own, if flv == null then null else flv.Buf()
  {
    && p.Valid() && p.log == s.log && Current(flv, s.log, own)
    && HandedOut(tags, s.handed, own) && p.bufs !! own
  }

  method NewTag(t: Tag) returns (flv: FlvTag)
    ensures fresh(flv) && (flv.Buf() != null ==> fresh(flv.Buf()))
    ensures flv.Untouched() && flv.made == t
  {
    assert Payload(t)[0..|Payload(t)|] == Payload(t);
    match t.data
    case ScriptData(o) =>
      flv := new FlvTag(t.timestamp, ScriptBody(o), t);
    case AudioData(p, payload) =>
      var bytes := new Bytes(payload);
      var b := new Buffer(bytes, 0, |payload|);
      flv := new FlvTag(t.timestamp, AudioBody(p, b), t);
    case VideoData(f, p, payload) =>
      var bytes := new Bytes(payload);
      var b := new Buffer(bytes, 0, |payload|);
      flv := new FlvTag(t.timestamp, VideoBody(f, p, b), t);
  }

  lemma {:induction false} AllMadeAt(tags: seq<FlvTag>, i: nat)
    requires i < |tags|
    ensures |AllMade(tags)| == |tags| && AllMade(tags)[i] == tags[i].made
  {
    if i < |tags| - 1 {
      AllMadeAt(tags[..|tags| - 1], i);
    } else if i > 0 {
      AllMadeAt(tags[..|tags| - 1], i - 1);
    }
  }

  lemma CopiesAreHandedOut(tags: seq<FlvTag>)
    requires Copies(tags)
    ensures HandedOut(tags, AllMade(tags), AllBuffers(tags))
  {
    if tags != [] {
      AllMadeAt(tags, 0);
    }
    forall i | 0 <= i < |tags| ensures ReadsAs(tags[i], AllMade(tags)[i]) {
      AllMadeAt(tags, i);
      UntouchedReadsAsMade(tags[i]);
    }
  }

  lemma HandedOutTogether(a: seq<FlvTag>, av: seq<Tag>, aown: set<Buffer>,
                          b: seq<FlvTag>, bv: seq<Tag>, bown: set<Buffer>)
    requires HandedOut(a, av, aown) && HandedOut(b, bv, bown) && aown !! bown
    ensures HandedOut(a + b, av + bv, aown + bown)
  {
  }

  /** Handing out fresh copies. */
  lemma MoreHandedOut(tags: seq<FlvTag>, values: seq<Tag>, own: set<Buffer>, more: seq<FlvTag>)
    requires HandedOut(tags, values, own) && Copies(more) && AllBuffers(more) !! own
    ensures HandedOut(tags + more, values + AllMade(more), own + AllBuffers(more))
  {
    CopiesAreHandedOut(more);
    HandedOutTogether(tags, values, own, more, AllMade(more), AllBuffers(more));
  }

  method DoPublish(p: Pub, flv: FlvTag?, tags: seq<FlvTag>, ghost own: set<Buffer>, ghost s: Play, t: Tag)
    returns (next: FlvTag)
    requires InStep(p, flv, tags, own, s)
    modifies p, p.arrays
    ensures InStep(p, next, tags, own, PlayOp(p.r1, s, PublishTag(t)))
    ensures fresh(p.bufs - old(p.bufs)) && fresh(p.arrays - old(p.arrays)) && fresh(next)
    ensures next.Buf() != null ==> fresh(next.Buf())
  {
    next := NewTag(t);
    assert next.Buf() !in own;
    DoLog(p, tags, own, s, next);
  }

  method DoLog(p: Pub, tags: seq<FlvTag>, ghost own: set<Buffer>, ghost s: Play, flv: FlvTag)
    requires p.Valid() && p.log == s.log && HandedOut(tags, s.handed, own) && p.bufs !! own && flv.Untouched()
    modifies p, p.arrays
    ensures p.Valid() && p.log == s.log + [flv.made] && flv.Untouched()
    ensures HandedOut(tags, s.handed, own) && p.bufs !! own
    ensures fresh(p.bufs - old(p.bufs)) && fresh(p.arrays - old(p.arrays))
  {
    p.UpdateCache(flv);
  }

  method DoHandOut(p: Pub, flv: FlvTag, tags: seq<FlvTag>, ghost own: set<Buffer>, ghost s: Play)
    returns (r: seq<FlvTag>, ghost rown: set<Buffer>)
    requires InStep(p, flv, tags, own, s)
    ensures InStep(p, flv, r, rown, PlayOp(p.r1, s, HandOut)) && fresh(rown - own)
  {
    var view := CloneView(flv);
    AllMadeSnoc([], view);
    assert [] + [view] == [view] && AllMade([view]) == [flv.made];
    MoreHandedOut(tags, s.handed, own, [view]);
    r, rown := tags + [view], own + AllBuffers([view]);
  }

  method DoReplay(p: Pub, flv: FlvTag?, tags: seq<FlvTag>, ghost own: set<Buffer>, ghost s: Play)
    returns (r: seq<FlvTag>, ghost rown: set<Buffer>)
    requires InStep(p, flv, tags, own, s)
    ensures InStep(p, flv, r, rown, PlayOp(p.r1, s, Replay)) && fresh(rown - own)
  {
    var replay := p.InitTags();
    MoreHandedOut(tags, s.handed, own, replay);
    r, rown := tags + replay, own + AllBuffers(replay);
  }

  /** A receiver reads from the `k`-th tag handed out. */
  method ReadSome(tags: seq<FlvTag>, ghost own: set<Buffer>, ghost values: seq<Tag>, k: nat, n: nat)
    requires HandedOut(tags, values, own) && k < |tags|
    modifies own
    ensures HandedOut(tags, values[k := Drop(values[k], n)], own)
  {
    var t := tags[k];
    match t.body {
      case ScriptBody(_) =>
      case AudioBody(_, b) => var front := b.Read(n);
      case VideoBody(_, _, b) => var front := b.Read(n);
    }
    assert ReadsAs(t, Drop(values[k], n));
    forall i | 0 <= i < |tags| && i != k ensures ReadsAs(tags[i], values[i]) {
      assert tags[i].Buf() == null || tags[i].Buf() != t.Buf();
    }
  }

  method Perform(p: Pub, flv: FlvTag?, tags: seq<FlvTag>, ghost own: set<Buffer>, ghost s: Play, op: Op)
    returns (next: FlvTag?, r: seq<FlvTag>, ghost rown: set<Buffer>)
    requires InStep(p, flv, tags, own, s)
    modifies p, own, p.arrays
    ensures InStep(p, next, r, rown, PlayOp(p.r1, s, op))
    ensures fresh(p.bufs - old(p.bufs)) && fresh(p.arrays - old(p.arrays)) && fresh(rown - own)
  {
    next, r, rown := flv, tags, own;
    match op
    case PublishTag(t) =>
      next := DoPublish(p, flv, tags, own, s, t);
    case HandOut =>
      if flv != null {
        r, rown := DoHandOut(p, flv, tags, own, s);
      }
    case Replay =>
      r, rown := DoReplay(p, flv, tags, own, s);
    case Consume(k, n) =>
      if k < |tags| {
        ReadSome(tags, own, s.handed, k, n);
      }
  }

  /** Playing any script on the heap: every tag handed out reads exactly as its independent copy. */
  method PlayOnHeap(r1: bool, ops: seq<Op>) returns (p: Pub, tags: seq<FlvTag>, ghost own: set<Buffer>)
    ensures p.Valid() && p.log == PlayAll(r1, ops).log
    ensures HandedOut(tags, PlayAll(r1, ops).handed, own)
  {
    p := new Pub(r1);
    tags, own := [], {};
    var flv: FlvTag? := null;
    for i := 0 to |ops|
      invariant fresh(p) && fresh(p.bufs) && fresh(own) && fresh(p.arrays)
      invariant p.r1 == r1 && InStep(p, flv, tags, own, PlayAll(r1, ops[..i]))
    {
      assert ops[..i + 1][..i] == ops[..i];
      flv, tags, own := Perform(p, flv, tags, own, PlayAll(r1, ops[..i]), ops[i]);
    }
    assert ops[..|ops|] == ops;
  }
}
