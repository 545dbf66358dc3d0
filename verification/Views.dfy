/** Tags as objects: read buffers over a shared byte array, and the cloned views handed around. */
module Views {
  import opened Flv

  /** The byte array behind the views of a tag. It is filled before the tag is published; neither the
      relay nor reading a buffer writes to it. */
  class Bytes {
    const data: seq<Byte>

    constructor (data: seq<Byte>)
      ensures this.data == data
    {
      this.data := data;
    }
  }

  /** bytes.Buffer as the relay uses it: a slice of an array it shares, read through an offset. */
  class Buffer {
    const bytes: Bytes
    const lo: nat
    const hi: nat
    var off: nat

    ghost predicate Valid()
      reads this
    {
      lo <= off <= hi <= |bytes.data|
    }

    function Unread(): seq<Byte>
      requires Valid()
      reads this
    {
      bytes.data[off..hi]
    }

    /** bytes.NewBuffer on a slice of the array. */
    constructor (bytes: Bytes, lo: nat, hi: nat)
      ensures this.bytes == bytes && this.lo == lo && this.hi == hi && this.off == lo
    {
      this.bytes, this.lo, this.hi, this.off := bytes, lo, hi, lo;
    }

    /** Reading consumes the front of what is unread. */
    method Read(n: nat) returns (front: seq<Byte>)
      requires Valid()
      modifies this
      ensures Valid()
      ensures front + Unread() == old(Unread())
      ensures |front| == if n <= |old(Unread())| then n else |old(Unread())|
    {
      var k := if n <= hi - off then n else hi - off;
      front := bytes.data[off..off + k];
      off := off + k;
    }
  }

  datatype Body =
    | ScriptBody(objects: seq<Byte>)
    | AudioBody(aacPacketType: Byte, audio: Buffer)
    | VideoBody(frameType: Byte, avcPacketType: Byte, video: Buffer)

  /** What a tag object with this body holds once `n` bytes of its buffer's slice are gone. */
  ghost function Contents(timestamp: nat, body: Body, n: nat): Tag
    requires match body
      case ScriptBody(_) => true
      case AudioBody(_, b) => b.lo + n <= b.hi <= |b.bytes.data|
      case VideoBody(_, _, b) => b.lo + n <= b.hi <= |b.bytes.data|
  {
    Tag(timestamp,
        match body
        case ScriptBody(o) => ScriptData(o)
        case AudioBody(p, b) => AudioData(p, b.bytes.data[b.lo + n..b.hi])
        case VideoBody(f, p, b) => VideoData(f, p, b.bytes.data[b.lo + n..b.hi]))
  }

  /** flvtag.FlvTag: fixed fields, and for audio and video a buffer that is consumed when sent. `made`
      is the tag the object was made as. */
  class FlvTag {
    const timestamp: nat
    const body: Body
    ghost const made: Tag

    constructor (timestamp: nat, body: Body, ghost made: Tag)
      ensures this.timestamp == timestamp && this.body == body && this.made == made
    {
      this.timestamp, this.body, this.made := timestamp, body, made;
    }

    /** The buffer, or null: script data has none. */
    ghost function Buf(): Buffer? {
      match body
      case ScriptBody(_) => null
      case AudioBody(_, b) => b
      case VideoBody(_, _, b) => b
    }

    /** The object was made as it claims. */
    ghost predicate Sound() {
      && (Buf() != null ==> Buf().lo <= Buf().hi <= |Buf().bytes.data|)
      && made == Contents(timestamp, body, 0)
    }

    /** Nothing of it was read yet. */
    ghost predicate Untouched()
      reads Buf()
    {
      Sound() && (Buf() != null ==> Buf().off == Buf().lo)
    }
  }

  /** cloneView: a new tag with a new buffer on what is still unread, over the same array. */
  method CloneView(flv: FlvTag) returns (v: FlvTag)
    requires flv.Untouched()
    ensures fresh(v) && (v.Buf() != null ==> fresh(v.Buf()))
    ensures v.Untouched() && v.made == flv.made
    ensures flv.Buf() != null ==> v.Buf() != null && v.Buf().bytes == flv.Buf().bytes
  {
    match flv.body
    case ScriptBody(o) =>
      v := new FlvTag(flv.timestamp, flv.body, flv.made);
    case AudioBody(p, b) =>
      var c := new Buffer(b.bytes, b.off, b.hi);
      v := new FlvTag(flv.timestamp, AudioBody(p, c), flv.made);
    case VideoBody(f, p, b) =>
      var c := new Buffer(b.bytes, b.off, b.hi);
      v := new FlvTag(flv.timestamp, VideoBody(f, p, c), flv.made);
  }
}
