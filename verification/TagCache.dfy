/**
 The publisher's cache of headers, the last key frame and the tags since it: one step for each
 published tag, and what the whole cache means as a function of the log of published tags alone.
 */
module TagCache {
  import opened Wrappers
  import opened Flv

  /** `since` is a Go slice: `None` is the nil slice, `Some([])` an empty one. */
  datatype Cache = Cache(
    aacBefore: Option<Tag>, avcBefore: Option<Tag>,
    aacAfter: Option<Tag>, avcAfter: Option<Tag>,
    lastKey: Option<Tag>, since: Option<seq<Tag>>)

  const EMPTY := Cache(None, None, None, None, None, None)

  function OrElse<T>(a: Option<T>, b: Option<T>): Option<T> {
    if a.Some? then a else b
  }

  function OrEmpty(since: Option<seq<Tag>>): seq<Tag> {
    if since.Some? then since.value else []
  }

  /** addTagAfterKeyFrame: a nil slice is left alone. */
  function Append(c: Cache, t: Tag): Cache {
    if c.since.None? then c else c.(since := Some(c.since.value + [t]))
  }

  /** Re-slicing a nil slice to length zero is nil; the repair R1 makes it an empty slice instead. */
  function Truncate(r1: bool, since: Option<seq<Tag>>): Option<seq<Tag>> {
    if since.None? && !r1 then None else Some([])
  }

  /** A key frame: it replaces the last one, the headers seen by now become the headers before it, and
      the tags since it start anew. */
  function AtKeyFrame(r1: bool, c: Cache, t: Tag): Cache {
    c.(lastKey := Some(t), since := Truncate(r1, c.since),
       avcBefore := OrElse(c.avcAfter, c.avcBefore),
       aacBefore := OrElse(c.aacAfter, c.aacBefore))
  }

  /** What `Publish` does to the cache. */
  function Step(r1: bool, c: Cache, t: Tag): Cache {
    match t.data
    case ScriptData(_) => Append(c, t)
    case AudioData(packet, _) =>
      if packet == AAC_SEQUENCE_HEADER then Append(c.(aacAfter := Some(t)), t) else Append(c, t)
    case VideoData(frame, packet, _) =>
      if packet == AVC_SEQUENCE_HEADER then Append(c.(avcAfter := Some(t)), t)
      else if frame == KEY_FRAME then AtKeyFrame(r1, c, t)
      else Append(c, t)
  }

  function Run(r1: bool, log: seq<Tag>): Cache {
    if log == [] then EMPTY else Step(r1, Run(r1, log[..|log| - 1]), log[|log| - 1])
  }

  lemma RunSnoc(r1: bool, log: seq<Tag>, t: Tag)
    ensures Run(r1, log + [t]) == Step(r1, Run(r1, log), t)
  {
    assert (log + [t])[..|log + [t]| - 1] == log;
  }

  function Optional(t: Option<Tag>): seq<Tag> {
    if t.Some? then [t.value] else []
  }

  /** What `InitSub` replays to a new subscriber. */
  function InitTags(c: Cache): seq<Tag> {
    (if c.lastKey.Some?
     then Optional(c.avcBefore) + [c.lastKey.value] + Optional(c.aacBefore)
     else Optional(c.avcAfter) + Optional(c.aacAfter))
    + OrEmpty(c.since)
  }

  /** The log up to, not including, its last key frame; empty when there is none. */
  function BeforeKey(log: seq<Tag>): seq<Tag> {
    match LastPos(KeyFrame, log)
    case None => []
    case Some(k) => log[..k]
  }

  /** The cache as a function of the log, without replaying it. */
  function Meaning(r1: bool, log: seq<Tag>): Cache {
    Cache(
      LastTag(AacHeader, BeforeKey(log)), LastTag(AvcHeader, BeforeKey(log)),
      LastTag(AacHeader, log), LastTag(AvcHeader, log),
      LastTag(KeyFrame, log),
      match LastPos(KeyFrame, log)
      case None => None
      case Some(k) => if r1 then Some(log[k + 1..]) else None)
  }

  /** The incremental cache refines the log; as written, the tags since the key frame are never kept. */
  lemma {:induction false} CacheRefinesLog(r1: bool, log: seq<Tag>)
    ensures Run(r1, log) == Meaning(r1, log)
    ensures !r1 ==> Run(r1, log).since.None?
  {
    if log != [] {
      var front, t := log[..|log| - 1], log[|log| - 1];
      CacheRefinesLog(r1, front);
      assert log == front + [t];
      if Marked(KeyFrame, t) {
        StepAtKeyFrame(r1, front, t);
      } else {
        StepElsewhere(r1, front, t);
      }
    }
  }

  lemma LastPosSnoc(m: Mark, front: seq<Tag>, t: Tag)
    ensures LastPos(m, front + [t]) == if Marked(m, t) then Some(|front|) else LastPos(m, front)
  {
    assert (front + [t])[..|front + [t]| - 1] == front;
  }

  lemma LastTagSnoc(m: Mark, front: seq<Tag>, t: Tag)
    ensures LastTag(m, front + [t]) == if Marked(m, t) then Some(t) else LastTag(m, front)
  {
    LastPosSnoc(m, front, t);
  }

  /** At a key frame, "the header seen since, or else the one kept before" is the last header before it. */
  lemma StepAtKeyFrame(r1: bool, front: seq<Tag>, t: Tag)
    requires Marked(KeyFrame, t)
    ensures Step(r1, Meaning(r1, front), t) == Meaning(r1, front + [t])
  {
    var log := front + [t];
    LastPosSnoc(KeyFrame, front, t);
    assert BeforeKey(log) == front && log[|front| + 1..] == [];
    LastTagSnoc(AvcHeader, front, t);
    LastTagSnoc(AacHeader, front, t);
    HeaderBeforeKey(AvcHeader, front);
    HeaderBeforeKey(AacHeader, front);
  }

  lemma StepElsewhere(r1: bool, front: seq<Tag>, t: Tag)
    requires !Marked(KeyFrame, t)
    ensures Step(r1, Meaning(r1, front), t) == Meaning(r1, front + [t])
  {
    var log := front + [t];
    LastPosSnoc(KeyFrame, front, t);
    LastTagSnoc(AvcHeader, front, t);
    LastTagSnoc(AacHeader, front, t);
    LastTagSnoc(KeyFrame, front, t);
    if LastPos(KeyFrame, front).Some? {
      var k := LastPos(KeyFrame, front).value;
      assert BeforeKey(log) == BeforeKey(front);
      assert log[k + 1..] == front[k + 1..] + [t];
    }
  }

  lemma HeaderBeforeKey(m: Mark, log: seq<Tag>)
    ensures LastTag(m, BeforeKey(log)).Some? ==> LastTag(m, log).Some?
  {
    var b := BeforeKey(log);
    if LastPos(m, b).Some? {
      var i := LastPos(m, b).value;
      assert log[i] == b[i];
    }
  }
}
