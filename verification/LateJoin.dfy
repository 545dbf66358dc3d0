/**
 What a subscriber is sent, as a function of the published log: the replay at the publication that
 first visits it (its trigger), then every later tag. `r1` selects the repair of the nil re-slice;
 `r1 == false` is the code as written.
 */
module LateJoin {
  import opened Wrappers
  import opened Sequences
  import opened Flv
  import opened TagCache

  /** Everything submitted to a subscriber triggered by `log[i]`, once `n` tags are published. */
  function Stream(r1: bool, log: seq<Tag>, i: nat, n: nat): seq<Tag>
    requires i < n <= |log|
  {
    InitTags(Run(r1, log[..i + 1])) + log[i + 1..n]
  }

  /** The key frame a subscriber triggered by `log[i]` starts from. */
  function KeyAt(log: seq<Tag>, i: nat): (k: Option<nat>)
    requires i < |log|
    ensures k.Some? ==> k.value <= i && Marked(KeyFrame, log[k.value])
    ensures k.Some? ==> forall j :: k.value < j <= i ==> !Marked(KeyFrame, log[j])
    ensures k.None? ==> forall j :: 0 <= j <= i ==> !Marked(KeyFrame, log[j])
  {
    var k := LastPos(KeyFrame, log[..i + 1]);
    assert forall j :: 0 <= j <= i ==> log[..i + 1][j] == log[j];
    k
  }

  /** Whether the published tag `log[j]` reaches a subscriber triggered by `log[i]`. */
  predicate Kept(r1: bool, log: seq<Tag>, i: nat, j: nat)
    requires i < |log|
  {
    match KeyAt(log, i)
    case None => j > i
    case Some(k) => j == k || j > i || (r1 && j > k)
  }

  /** The headers replayed to a subscriber triggered by `log[i]`: those in force at its key frame, or
      at the trigger when there is no key frame yet. */
  function ReplayedHeader(m: Mark, log: seq<Tag>, i: nat): Option<Tag>
    requires i < |log|
  {
    match KeyAt(log, i)
    case None => LastTag(m, log[..i + 1])
    case Some(k) => LastTag(m, log[..k])
  }

  /** Where the contiguous part of the stream starts in the log. */
  function TailStart(r1: bool, log: seq<Tag>, i: nat): (c: nat)
    requires i < |log|
    ensures c <= i + 1
  {
    match KeyAt(log, i)
    case Some(k) => if r1 then k + 1 else i + 1
    case None => i + 1
  }

  /** The part of the replay in front of the contiguous part. */
  function Prelude(log: seq<Tag>, i: nat): seq<Tag>
    requires i < |log|
  {
    var avc, aac := Optional(ReplayedHeader(AvcHeader, log, i)), Optional(ReplayedHeader(AacHeader, log, i));
    match KeyAt(log, i)
    case None => avc + aac
    case Some(k) => avc + [log[k]] + aac
  }

  lemma StreamShape(r1: bool, log: seq<Tag>, i: nat, n: nat)
    requires i < n <= |log|
    ensures Stream(r1, log, i, n) == Prelude(log, i) + log[TailStart(r1, log, i)..n]
  {
    if KeyAt(log, i).Some? {
      ReplayWithKey(r1, log, i);
    } else {
      ReplayWithoutKey(r1, log, i);
    }
    Resplit(Prelude(log, i), log, TailStart(r1, log, i), i + 1, n);
  }

  lemma Resplit(pre: seq<Tag>, log: seq<Tag>, c: nat, m: nat, n: nat)
    requires c <= m <= n <= |log|
    ensures (pre + log[c..m]) + log[m..n] == pre + log[c..n]
  {
    assert log[c..n] == log[c..m] + log[m..n];
  }

  lemma ReplayWithKey(r1: bool, log: seq<Tag>, i: nat)
    requires i < |log| && KeyAt(log, i).Some?
    ensures InitTags(Run(r1, log[..i + 1])) == Prelude(log, i) + log[TailStart(r1, log, i)..i + 1]
  {
    var seen, k := log[..i + 1], KeyAt(log, i).value;
    CacheRefinesLog(r1, seen);
    assert BeforeKey(seen) == log[..k] && seen[k + 1..] == log[k + 1..i + 1] && log[i + 1..i + 1] == [];
  }

  lemma ReplayWithoutKey(r1: bool, log: seq<Tag>, i: nat)
    requires i < |log| && KeyAt(log, i).None?
    ensures InitTags(Run(r1, log[..i + 1])) == Prelude(log, i) + log[i + 1..i + 1]
  {
    CacheRefinesLog(r1, log[..i + 1]);
  }

  /** Where the tag at position `q` of the stream was published; `None` for a replayed header. */
  function Source(r1: bool, log: seq<Tag>, i: nat, q: nat): Option<nat>
    requires i < |log|
  {
    var pre := |Prelude(log, i)|;
    if q >= pre then Some(TailStart(r1, log, i) + q - pre)
    else if KeyAt(log, i).Some? && q == |Optional(ReplayedHeader(AvcHeader, log, i))| then KeyAt(log, i)
    else None
  }

  /** Late-join equivalence. Erasing at most two replayed headers from the stream leaves published tags
      in publication order, each once, and exactly the kept positions. Under R1 those are all positions
      from the key frame on; as written the positions after the key frame up to and including the
      trigger are the missing ones; without a key frame everything after the trigger is kept. */
  lemma LateJoinEquivalence(r1: bool, log: seq<Tag>, i: nat, n: nat)
    requires i < n <= |log|
    ensures var s := Stream(r1, log, i, n);
      && (forall q :: 0 <= q < |s| ==> CorrectlyPlaced(r1, log, i, n, q))
      && (forall p, q :: 0 <= p < q < |s| ==> InOrder(r1, log, i, p, q))
      && (forall j :: 0 <= j < n ==>
            (Kept(r1, log, i, j) <==> exists q :: 0 <= q < |s| && Source(r1, log, i, q) == Some(j)))
  {
    StreamShape(r1, log, i, n);
    var s := Stream(r1, log, i, n);
    forall q | 0 <= q < |s| ensures CorrectlyPlaced(r1, log, i, n, q) {
      Placement(r1, log, i, n, q);
    }
    forall p, q | 0 <= p < q < |s| ensures InOrder(r1, log, i, p, q) {
      Ordering(r1, log, i, p, q);
    }
    forall j | 0 <= j < n
      ensures Kept(r1, log, i, j) <==> exists q :: 0 <= q < |s| && Source(r1, log, i, q) == Some(j)
    {
      if Kept(r1, log, i, j) {
        var q := KeptSomewhere(r1, log, i, n, j);
      }
    }
  }

  /** Position `q` of the stream holds the tag published at its source, or one of the two headers that
      open and close the prelude. */
  predicate CorrectlyPlaced(r1: bool, log: seq<Tag>, i: nat, n: nat, q: nat)
    requires i < n <= |log| && q < |Stream(r1, log, i, n)|
  {
    var t := Stream(r1, log, i, n)[q];
    match Source(r1, log, i, q)
    case Some(j) => j < n && t == log[j] && Kept(r1, log, i, j)
    case None => (q == 0 || q == |Prelude(log, i)| - 1) && (Marked(AvcHeader, t) || Marked(AacHeader, t))
  }

  predicate InOrder(r1: bool, log: seq<Tag>, i: nat, p: nat, q: nat)
    requires i < |log|
  {
    var a, b := Source(r1, log, i, p), Source(r1, log, i, q);
    a.Some? && b.Some? ==> a.value < b.value
  }

  lemma Placement(r1: bool, log: seq<Tag>, i: nat, n: nat, q: nat)
    requires i < n <= |log| && q < |Stream(r1, log, i, n)|
    ensures CorrectlyPlaced(r1, log, i, n, q)
  {
    StreamShape(r1, log, i, n);
    var pre, c := Prelude(log, i), TailStart(r1, log, i);
    if q < |pre| {
      assert Stream(r1, log, i, n)[q] == pre[q];
      PreludePlacement(r1, log, i, q);
    } else {
      assert Stream(r1, log, i, n)[q] == log[c..n][q - |pre|];
    }
  }

  lemma PreludePlacement(r1: bool, log: seq<Tag>, i: nat, q: nat)
    requires i < |log| && q < |Prelude(log, i)|
    ensures var t, j := Prelude(log, i)[q], Source(r1, log, i, q);
      && (j.Some? ==> j == KeyAt(log, i) && t == log[j.value])
      && (j.None? ==> (q == 0 || q == |Prelude(log, i)| - 1) && (Marked(AvcHeader, t) || Marked(AacHeader, t)))
  {
    HeadersAreMarked(AvcHeader, log, i);
    HeadersAreMarked(AacHeader, log, i);
  }

  lemma HeadersAreMarked(m: Mark, log: seq<Tag>, i: nat)
    requires i < |log|
    ensures var h := ReplayedHeader(m, log, i); h.Some? ==> Marked(m, h.value)
  {
  }

  lemma Ordering(r1: bool, log: seq<Tag>, i: nat, p: nat, q: nat)
    requires i < |log| && p < q
    ensures InOrder(r1, log, i, p, q)
  {
  }

  lemma KeptSomewhere(r1: bool, log: seq<Tag>, i: nat, n: nat, j: nat) returns (q: nat)
    requires i < n <= |log| && j < n && Kept(r1, log, i, j)
    ensures q < |Stream(r1, log, i, n)| && Source(r1, log, i, q) == Some(j)
  {
    StreamShape(r1, log, i, n);
    if KeyAt(log, i) == Some(j) {
      q := |Optional(ReplayedHeader(AvcHeader, log, i))|;
    } else {
      q := |Prelude(log, i)| + j - TailStart(r1, log, i);
    }
  }

  /** Which sequence header configures the decoder of a track. */
  function HeaderOf(track: Track): Mark
    requires track != Script
  {
    if track == Video then AvcHeader else AacHeader
  }

  /** The condition under which the tag published at `j` is decoded with the configuration it was
      published under: always under R1, without a key frame, and for the replayed key frame itself; as
      written, for a later tag, when a header follows the trigger, or none changed between the key frame
      and the trigger. */
  predicate ConfigurationCarried(r1: bool, track: Track, log: seq<Tag>, i: nat, j: nat)
    requires track != Script && i < |log| && j < |log|
  {
    var m := HeaderOf(track);
    match KeyAt(log, i)
    case None => true
    case Some(k) =>
      || r1
      || j == k
      || (i < j && LastTag(m, log[i + 1..j]).Some?)
      || LastTag(m, log[..i + 1]) == LastTag(m, log[..k])
  }

  /** Decoder-configuration preservation, with its exact condition. */
  lemma DecoderConfiguration(r1: bool, track: Track, log: seq<Tag>, i: nat, n: nat, q: nat)
    requires i < n <= |log| && q < |Stream(r1, log, i, n)|
    requires Source(r1, log, i, q).Some? && Source(r1, log, i, q).value < n
    requires track != Script && OnTrack(track, log[Source(r1, log, i, q).value])
    ensures var j, m := Source(r1, log, i, q).value, HeaderOf(track);
      LastTag(m, Stream(r1, log, i, n)[..q]) == LastTag(m, log[..j])
      <==> ConfigurationCarried(r1, track, log, i, j)
  {
    StreamShape(r1, log, i, n);
    var s, pre, m := Stream(r1, log, i, n), Prelude(log, i), HeaderOf(track);
    var j, c := Source(r1, log, i, q).value, TailStart(r1, log, i);
    if q >= |pre| {
      assert s[..q] == pre + log[c..j];
      TailConfiguration(r1, m, log, i, j);
    } else {
      assert s[..q] == Optional(ReplayedHeader(AvcHeader, log, i));
      LastTagOptional(m, log[..j]);
    }
  }

  lemma TailConfiguration(r1: bool, m: Mark, log: seq<Tag>, i: nat, j: nat)
    requires i < |log| && TailStart(r1, log, i) <= j < |log| && m != KeyFrame
    ensures var k := KeyAt(log, i);
      LastTag(m, Prelude(log, i) + log[TailStart(r1, log, i)..j]) == LastTag(m, log[..j])
      <==> k.None? || r1 || LastTag(m, log[i + 1..j]).Some?
           || LastTag(m, log[..i + 1]) == LastTag(m, log[..k.value])
  {
    TailAgrees(m, log, i, TailStart(r1, log, i), j);
    if KeyAt(log, i).Some? {
      KeyKeepsHeader(m, log, KeyAt(log, i).value);
    }
  }

  /** A header in the tail decides; else the one in force at its start must be the replayed one. */
  lemma TailAgrees(m: Mark, log: seq<Tag>, i: nat, c: nat, j: nat)
    requires i < |log| && c <= j < |log| && m != KeyFrame
    ensures LastTag(m, Prelude(log, i) + log[c..j]) == LastTag(m, log[..j])
            <==> LastTag(m, log[c..j]).Some? || ReplayedHeader(m, log, i) == LastTag(m, log[..c])
  {
    LastTagConcat(m, Prelude(log, i), log[c..j]);
    PreludeConfiguration(m, log, i);
    assert log[..j] == log[..c] + log[c..j];
    LastTagConcat(m, log[..c], log[c..j]);
  }

  lemma LastTagOptional(m: Mark, log: seq<Tag>)
    ensures LastTag(m, Optional(LastTag(m, log))) == LastTag(m, log)
  {
  }

  lemma KeyKeepsHeader(m: Mark, log: seq<Tag>, k: nat)
    requires k < |log| && Marked(KeyFrame, log[k]) && m != KeyFrame
    ensures LastTag(m, log[..k + 1]) == LastTag(m, log[..k])
  {
    assert log[..k + 1] == log[..k] + [log[k]];
    LastTagSnoc(m, log[..k], log[k]);
  }

  /** After the prelude the decoder is configured with the replayed header. */
  lemma PreludeConfiguration(m: Mark, log: seq<Tag>, i: nat)
    requires i < |log| && m != KeyFrame
    ensures LastTag(m, Prelude(log, i)) == ReplayedHeader(m, log, i)
  {
    var avc, aac := Optional(ReplayedHeader(AvcHeader, log, i)), Optional(ReplayedHeader(AacHeader, log, i));
    var key := if KeyAt(log, i).Some? then [log[KeyAt(log, i).value]] else [];
    assert Prelude(log, i) == avc + key + aac;
    LastTagConcat(m, avc + key, aac);
    LastTagConcat(m, avc, key);
  }

  /** The condition can fail as written: a header published between the key frame and the trigger is
      neither replayed nor sent live, so the next tag is decoded with the older configuration. */
  lemma ConfigurationLostAsWritten() returns (log: seq<Tag>, q: nat)
    ensures |log| == 5 && q < |Stream(false, log, 3, 5)| && Source(false, log, 3, q) == Some(4)
    ensures OnTrack(Video, log[4])
    ensures LastTag(AvcHeader, Stream(false, log, 3, 5)[..q]) != LastTag(AvcHeader, log[..4])
    ensures !Kept(false, log, 3, 2) && !Kept(false, log, 3, 3)
  {
    var h1, h2 := Tag(0, VideoData(1, 0, [1])), Tag(2, VideoData(1, 0, [2]));
    var key, inter := Tag(1, VideoData(1, 1, [])), Tag(3, VideoData(2, 1, []));
    log := [h1, key, h2, inter, inter];
    assert Marked(KeyFrame, log[1]);
    assert !Marked(KeyFrame, log[0]) && !Marked(KeyFrame, log[2]) && !Marked(KeyFrame, log[3]);
    assert KeyAt(log, 3) == Some(1);
    LastTagSnoc(AvcHeader, [], h1);
    assert log[..1] == [] + [h1];
    LastTagSnoc(AvcHeader, [h1, key], h2);
    LastTagSnoc(AvcHeader, [h1, key] + [h2], inter);
    assert log[..4] == [h1, key] + [h2] + [inter];
    assert log[4..4] == [];
    StreamShape(false, log, 3, 5);
    assert LastTag(AacHeader, log[..1]) == None;
    q := 2;
    DecoderConfiguration(false, Video, log, 3, 5, q);
  }

  /** Per-track order: each track of the stream is a subsequence of that track of the log. */
  lemma TrackOrder(r1: bool, track: Track, log: seq<Tag>, i: nat, n: nat)
    requires i < n <= |log|
    ensures Subseq(Project(track, Stream(r1, log, i, n)), Project(track, log[..n]))
  {
    StreamShape(r1, log, i, n);
    var c := TailStart(r1, log, i);
    PreludeOrder(track, log, i, c);
    assert log[..n] == log[..c] + log[c..n];
    SameTail(track, Prelude(log, i), log[..c], log[c..n]);
  }

  lemma SameTail(track: Track, a: seq<Tag>, b: seq<Tag>, tail: seq<Tag>)
    requires Subseq(Project(track, a), Project(track, b))
    ensures Subseq(Project(track, a + tail), Project(track, b + tail))
  {
    ProjectConcat(track, a, tail);
    ProjectConcat(track, b, tail);
    SubseqRefl(Project(track, tail));
    SubseqConcat(Project(track, a), Project(track, b), Project(track, tail), Project(track, tail));
  }

  /** One replayed header, if any, then the key frame, if any: both were published, in that order. */
  lemma PreludeOrder(track: Track, log: seq<Tag>, i: nat, c: nat)
    requires i < |log| && c <= i + 1
    requires match KeyAt(log, i) case None => c == i + 1 case Some(k) => k < c
    ensures Subseq(Project(track, Prelude(log, i)), Project(track, log[..c]))
  {
    var avc, aac := Optional(ReplayedHeader(AvcHeader, log, i)), Optional(ReplayedHeader(AacHeader, log, i));
    var key := if KeyAt(log, i).Some? then [log[KeyAt(log, i).value]] else [];
    assert Prelude(log, i) == avc + key + aac;
    PreludeOnTrack(track, avc, key, aac);
    KeptPublished(AvcHeader, log, i, c, key);
    KeptPublished(AacHeader, log, i, c, []);
    assert aac + [] == aac;
    ProjectSubseq(track, Project(track, Prelude(log, i)), log[..c]);
    ProjectIdempotent(track, Prelude(log, i));
  }

  lemma PreludeOnTrack(track: Track, avc: seq<Tag>, key: seq<Tag>, aac: seq<Tag>)
    requires AllOn(Video, avc) && AllOn(Video, key) && AllOn(Audio, aac)
    ensures Project(track, avc + key + aac)
         == if track == Video then avc + key else if track == Audio then aac else []
  {
    ProjectConcat(track, avc + key, aac);
    ProjectConcat(track, avc, key);
    ProjectAll(track, Video, avc);
    ProjectAll(track, Video, key);
    ProjectAll(track, Audio, aac);
  }

  predicate AllOn(track: Track, s: seq<Tag>) {
    forall i :: 0 <= i < |s| ==> OnTrack(track, s[i])
  }

  lemma {:induction false} ProjectAll(track: Track, on: Track, s: seq<Tag>)
    requires AllOn(on, s)
    ensures Project(track, s) == if track == on then s else []
  {
    if s != [] {
      ProjectAll(track, on, s[..|s| - 1]);
      assert OnTrack(on, s[|s| - 1]);
    }
  }

  lemma KeptPublished(m: Mark, log: seq<Tag>, i: nat, c: nat, key: seq<Tag>)
    requires i < |log| && c <= i + 1
    requires match KeyAt(log, i) case None => c == i + 1 && key == [] case Some(k) => k < c && key <= [log[k]]
    ensures Subseq(Optional(ReplayedHeader(m, log, i)) + key, log[..c])
  {
    var h := Optional(ReplayedHeader(m, log, i));
    if KeyAt(log, i).Some? {
      var k := KeyAt(log, i).value;
      HeaderPublished(m, log[..k]);
      assert Subseq(key, [log[k]]) by {
        assert key == [log[k]][..|key|];
        SubseqOfSlice([log[k]], 0, |key|);
      }
      SubseqConcat(h, log[..k], key, [log[k]]);
      SubseqConcat(h + key, log[..k] + [log[k]], [], log[k + 1..c]);
      assert log[..c] == log[..k] + [log[k]] + log[k + 1..c] && h + key + [] == h + key;
    } else {
      HeaderPublished(m, log[..c]);
      assert h + key == h;
    }
  }

  lemma {:induction false} ProjectIdempotent(track: Track, s: seq<Tag>)
    ensures Project(track, Project(track, s)) == Project(track, s)
  {
    if s != [] {
      var front := s[..|s| - 1];
      ProjectIdempotent(track, front);
      var p := Project(track, s);
      if OnTrack(track, s[|s| - 1]) {
        assert p[..|p| - 1] == Project(track, front);
      }
    }
  }

  lemma HeaderPublished(m: Mark, log: seq<Tag>)
    ensures Subseq(Optional(LastTag(m, log)), log)
  {
    if LastPos(m, log).Some? {
      var h := LastPos(m, log).value;
      SubseqOfSlice(log, h, h + 1);
      assert log[h..h + 1] == [log[h]];
    }
  }
}
