/**
 FLV tags as the relay sees them, and the positions and projections of a log of tags.
 The numeric codes are those of the Adobe Flash Video File Format Specification, version 10.1:
 AACPacketType in section E.4.2.1, FrameType and AVCPacketType in section E.4.3.1.
 */
module Flv {
  import opened Wrappers
  import opened Sequences

  newtype Byte = x: int | 0 <= x < 256

  const AAC_SEQUENCE_HEADER: Byte := 0
  const AVC_SEQUENCE_HEADER: Byte := 0
  const KEY_FRAME: Byte := 1

  datatype Data =
    | ScriptData(objects: seq<Byte>)
    | AudioData(aacPacketType: Byte, payload: seq<Byte>)
    | VideoData(frameType: Byte, avcPacketType: Byte, payload: seq<Byte>)

  datatype Tag = Tag(timestamp: nat, data: Data)

  datatype Track = Script | Audio | Video

  predicate OnTrack(track: Track, t: Tag) {
    match track
    case Script => t.data.ScriptData?
    case Audio => t.data.AudioData?
    case Video => t.data.VideoData?
  }

  /** The three kinds of tag the publisher's cache remembers. The header test comes first, so a key
      frame whose packet type is the sequence header counts as a header only. */
  datatype Mark = AacHeader | AvcHeader | KeyFrame

  predicate Marked(m: Mark, t: Tag) {
    match m
    case AacHeader => t.data.AudioData? && t.data.aacPacketType == AAC_SEQUENCE_HEADER
    case AvcHeader => t.data.VideoData? && t.data.avcPacketType == AVC_SEQUENCE_HEADER
    case KeyFrame =>
      t.data.VideoData? && t.data.avcPacketType != AVC_SEQUENCE_HEADER && t.data.frameType == KEY_FRAME
  }

  /** The kinds by their codes: AAC and AVC sequence headers have packet type 0, key frames frame type 1. */
  lemma KindsByCode(timestamp: nat, frameType: Byte, packet: Byte, payload: seq<Byte>)
    ensures var audio := Tag(timestamp, AudioData(packet, payload));
      (Marked(AacHeader, audio) <==> packet == 0) && !Marked(AvcHeader, audio) && !Marked(KeyFrame, audio)
    ensures var video := Tag(timestamp, VideoData(frameType, packet, payload));
      && (Marked(AvcHeader, video) <==> packet == 0) && !Marked(AacHeader, video)
      && (Marked(KeyFrame, video) <==> packet != 0 && frameType == 1)
    ensures forall m :: !Marked(m, Tag(timestamp, ScriptData(payload)))
  {
  }

  /** Every tag is on exactly one track, that of its data. */
  lemma OneTrackEach(t: Tag, a: Track, b: Track)
    ensures OnTrack(Script, t) || OnTrack(Audio, t) || OnTrack(Video, t)
    ensures OnTrack(a, t) && OnTrack(b, t) ==> a == b
    ensures OnTrack(Video, t) <==> t.data.VideoData?
    ensures OnTrack(Audio, t) <==> t.data.AudioData?
  {
  }

  /** Position of the last tag of a kind. */
  function LastPos(m: Mark, log: seq<Tag>): (r: Option<nat>)
    ensures r.Some? ==> r.value < |log| && Marked(m, log[r.value])
    ensures r.Some? ==> forall j :: r.value < j < |log| ==> !Marked(m, log[j])
    ensures r.None? ==> forall j :: 0 <= j < |log| ==> !Marked(m, log[j])
  {
    if log == [] then None
    else if Marked(m, log[|log| - 1]) then Some(|log| - 1)
    else LastPos(m, log[..|log| - 1])
  }

  /** The last tag of a kind: for a header, the decoder configuration in force after `log`. */
  function LastTag(m: Mark, log: seq<Tag>): Option<Tag> {
    match LastPos(m, log)
    case None => None
    case Some(i) => Some(log[i])
  }

  /** The second part decides, unless it holds no such tag. */
  lemma {:induction false} LastTagConcat(m: Mark, a: seq<Tag>, b: seq<Tag>)
    ensures LastTag(m, a + b) == if LastTag(m, b).Some? then LastTag(m, b) else LastTag(m, a)
    decreases |b|
  {
    if b == [] {
      assert a + b == a;
    } else {
      assert (a + b)[..|a + b| - 1] == a + b[..|b| - 1];
      LastTagConcat(m, a, b[..|b| - 1]);
    }
  }

  /** The tags of one track, in order. */
  function Project(track: Track, s: seq<Tag>): seq<Tag> {
    if s == [] then []
    else
      var front := Project(track, s[..|s| - 1]);
      if OnTrack(track, s[|s| - 1]) then front + [s[|s| - 1]] else front
  }

  lemma {:induction false} ProjectConcat(track: Track, a: seq<Tag>, b: seq<Tag>)
    ensures Project(track, a + b) == Project(track, a) + Project(track, b)
    decreases |b|
  {
    if b == [] {
      assert a + b == a;
    } else {
      assert (a + b)[..|a + b| - 1] == a + b[..|b| - 1];
      ProjectConcat(track, a, b[..|b| - 1]);
    }
  }

  lemma {:induction false} ProjectSubseq(track: Track, a: seq<Tag>, b: seq<Tag>)
    requires Subseq(a, b)
    ensures Subseq(Project(track, a), Project(track, b))
    decreases |b|
  {
    if a != [] {
      var b' := b[..|b| - 1];
      var p, p' := Project(track, b), Project(track, b');
      if Subseq(a, b') {
        ProjectSubseq(track, a, b');
        if OnTrack(track, b[|b| - 1]) {
          assert p[..|p| - 1] == p';
        }
      } else {
        var a' := a[..|a| - 1];
        ProjectSubseq(track, a', b');
        if OnTrack(track, b[|b| - 1]) {
          var q := Project(track, a);
          assert p[..|p| - 1] == p' && q[..|q| - 1] == Project(track, a');
        }
      }
    }
  }

  /** A projection keeps every tag of the track, as often as it occurs, in order, and no other tag. */
  lemma {:induction false} ProjectKeeps(track: Track, s: seq<Tag>)
    ensures Subseq(Project(track, s), s)
    ensures forall t :: multiset(Project(track, s))[t] == if OnTrack(track, t) then multiset(s)[t] else 0
  {
    if s != [] {
      var front, last := s[..|s| - 1], s[|s| - 1];
      ProjectKeeps(track, front);
      assert s == front + [last];
      if OnTrack(track, last) {
        var p := Project(track, s);
        assert p[..|p| - 1] == Project(track, front);
      }
    }
  }
}
