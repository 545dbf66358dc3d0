/**
 The publisher's cache as an object holding views of the published tags, updated in place, down to the
 array behind the slice of tags since the key frame, which is cut and reused at every key frame.
 */
module Publisher {
  import opened Wrappers
  import opened Flv
  import opened TagCache
  import opened Views

  ghost function MadeAs(t: FlvTag?): Option<Tag> {
    if t == null then None else Some(t.made)
  }

  ghost function AllMade(tags: seq<FlvTag>): seq<Tag> {
    if tags == [] then [] else AllMade(tags[..|tags| - 1]) + [tags[|tags| - 1].made]
  }

  lemma {:induction false} AllMadeConcat(a: seq<FlvTag>, b: seq<FlvTag>)
    ensures AllMade(a + b) == AllMade(a) + AllMade(b)
    decreases |b|
  {
    if b == [] {
      assert a + b == a;
    } else {
      assert (a + b)[..|a + b| - 1] == a + b[..|b| - 1];
      AllMadeConcat(a, b[..|b| - 1]);
    }
  }

  lemma AllMadeSnoc(a: seq<FlvTag>, t: FlvTag)
    ensures AllMade(a + [t]) == AllMade(a) + [t.made]
  {
    assert (a + [t])[..|a + [t]| - 1] == a;
  }

  lemma AllMadeNonNil(t: FlvTag?)
    ensures AllMade(NonNil(t)) == Optional(MadeAs(t))
  {
  }

  lemma AllMadeReplay(first: FlvTag?, key: FlvTag?, last: FlvTag?, since: seq<FlvTag>)
    ensures AllMade(NonNil(first) + NonNil(key) + NonNil(last) + since)
         == Optional(MadeAs(first)) + Optional(MadeAs(key)) + Optional(MadeAs(last)) + AllMade(since)
  {
    AllMadeConcat(NonNil(first) + NonNil(key) + NonNil(last), since);
    AllMadeConcat(NonNil(first) + NonNil(key), NonNil(last));
    AllMadeConcat(NonNil(first), NonNil(key));
    AllMadeNonNil(first);
    AllMadeNonNil(key);
    AllMadeNonNil(last);
  }

  /** A Go slice of tags: nil, or the first `len` elements of an array it may share. */
  datatype Slice = Nil | Slice(arr: array<FlvTag>, len: nat)

  ghost function Backing(s: Slice): set<array<FlvTag>> {
    if s.Nil? then {} else {s.arr}
  }

  ghost predicate Fits(s: Slice) {
    s.Slice? ==> s.len <= s.arr.Length
  }

  function Elements(s: Slice): seq<FlvTag>
    requires Fits(s)
    reads Backing(s)
  {
    if s.Nil? then [] else s.arr[..s.len]
  }

  /** append: in place while the array has room, which overwrites what a longer slice held there; else
      in a larger array. */
  method AppendTo(s: Slice, tag: FlvTag) returns (r: Slice)
    requires Fits(s)
    modifies Backing(s)
    ensures r.Slice? && Fits(r) && Elements(r) == old(Elements(s)) + [tag]
    ensures fresh(Backing(r) - Backing(s))
  {
    if s.Slice? && s.len < s.arr.Length {
      s.arr[s.len] := tag;
      r := Slice(s.arr, s.len + 1);
    } else {
      var front := Elements(s);
      var capacity: nat :| capacity > |front|;
      var arr := new FlvTag[capacity](i => if 0 <= i < |front| then front[i] else tag);
      r := Slice(arr, |front| + 1);
      assert arr[..|front|] == front;
    }
  }

  class Pub {
    const r1: bool
    var aacSeqHeaderBeforeKey: FlvTag?
    var avcSeqHeaderBeforeKey: FlvTag?
    var aacSeqHeaderAfterKey: FlvTag?
    var avcSeqHeaderAfterKey: FlvTag?
    var lastKeyFrame: FlvTag?
    var sincePrevKeyFrame: Slice

    /** What was published; what the slice holds, and the arrays it ever used; the tags ever cached, and
        their buffers. */
    ghost var log: seq<Tag>
    ghost var since: Option<seq<FlvTag>>
    ghost var arrays: set<array<FlvTag>>
    ghost var kept: set<FlvTag>
    ghost var bufs: set<Buffer>

    /** What the fields hold. */
    ghost function View(): Cache
      reads this`aacSeqHeaderBeforeKey, this`avcSeqHeaderBeforeKey, this`aacSeqHeaderAfterKey
      reads this`avcSeqHeaderAfterKey, this`lastKeyFrame, this`since
    {
      Cache(MadeAs(aacSeqHeaderBeforeKey), MadeAs(avcSeqHeaderBeforeKey),
            MadeAs(aacSeqHeaderAfterKey), MadeAs(avcSeqHeaderAfterKey), MadeAs(lastKeyFrame),
            if since == None then None else Some(AllMade(since.value)))
    }

    ghost predicate Backed()
      reads this`sincePrevKeyFrame, this`since, this`arrays, arrays
    {
      && Backing(sincePrevKeyFrame) <= arrays
      && Fits(sincePrevKeyFrame)
      && (sincePrevKeyFrame.Nil? <==> since == None)
      && (since != None ==> Elements(sincePrevKeyFrame) == since.value)
    }

    ghost predicate Owned()
      reads this
    {
      && (aacSeqHeaderBeforeKey == null || aacSeqHeaderBeforeKey in kept)
      && (avcSeqHeaderBeforeKey == null || avcSeqHeaderBeforeKey in kept)
      && (aacSeqHeaderAfterKey == null || aacSeqHeaderAfterKey in kept)
      && (avcSeqHeaderAfterKey == null || avcSeqHeaderAfterKey in kept)
      && (lastKeyFrame == null || lastKeyFrame in kept)
      && (since != None ==> forall t :: t in since.value ==> t in kept)
    }

    /** Nobody reads the cached buffers: the cache never hands them out. */
    ghost predicate Unread()
      reads this`kept, this`bufs, bufs
    {
      && (forall t :: t in kept ==> t.Sound() && (t.Buf() != null ==> t.Buf() in bufs))
      && (forall b :: b in bufs ==> b.off == b.lo)
    }

    /** The fields hold the cache of the log. */
    ghost predicate Valid()
      reads this, bufs, arrays
    {
      Owned() && Unread() && Backed() && View() == Run(r1, log)
    }

    /** What a subscriber initialised now is sent; `None` for an object not in order. */
    ghost function ReplayNow(): Option<seq<Tag>>
      reads this, bufs, arrays
    {
      if Valid() then Some(TagCache.InitTags(View())) else None
    }

    constructor (r1: bool)
      ensures Valid() && this.r1 == r1 && log == [] && bufs == {} && arrays == {}
    {
      this.r1 := r1;
      aacSeqHeaderBeforeKey, avcSeqHeaderBeforeKey := null, null;
      aacSeqHeaderAfterKey, avcSeqHeaderAfterKey := null, null;
      lastKeyFrame, sincePrevKeyFrame := null, Nil;
      log, since, arrays, kept, bufs := [], None, {}, {}, {};
    }

    /** A view for the cache to keep. */
    method Keep(flv: FlvTag) returns (tag: FlvTag)
      requires flv.Untouched() && Owned() && Unread()
      modifies this`kept, this`bufs
      ensures Owned() && Unread() && tag in kept && tag.made == flv.made
      ensures fresh(bufs - old(bufs))
    {
      tag := CloneView(flv);
      kept := kept + {tag};
      if tag.Buf() != null {
        bufs := bufs + {tag.Buf()};
      }
    }

    /** addTagAfterKeyFrame: nothing on a nil slice, else append. */
    method AddTagAfterKeyFrame(flv: FlvTag)
      requires flv.Untouched() && Owned() && Unread() && Backed()
      modifies this`sincePrevKeyFrame, this`since, this`kept, this`bufs, this`arrays, arrays
      ensures Owned() && Unread() && Backed() && View() == Append(old(View()), flv.made)
      ensures fresh(bufs - old(bufs)) && fresh(arrays - old(arrays))
    {
      if sincePrevKeyFrame.Nil? {
        return;
      }
      var tag := Keep(flv);
      AllMadeSnoc(since.value, tag);
      sincePrevKeyFrame := AppendTo(sincePrevKeyFrame, tag);
      arrays := arrays + Backing(sincePrevKeyFrame);
      since := Some(since.value + [tag]);
    }

    /** A sequence header, kept in its field and in the slice. */
    method StoreHeader(flv: FlvTag)
      requires flv.Untouched() && !flv.body.ScriptBody? && Owned() && Unread() && Backed()
      modifies this`aacSeqHeaderAfterKey, this`avcSeqHeaderAfterKey
      modifies this`sincePrevKeyFrame, this`since, this`kept, this`bufs
      modifies this`arrays, arrays
      ensures Owned() && Unread() && Backed()
      ensures View() == Append(if flv.body.AudioBody? then old(View()).(aacAfter := Some(flv.made))
                               else old(View()).(avcAfter := Some(flv.made)), flv.made)
      ensures fresh(bufs - old(bufs)) && fresh(arrays - old(arrays))
    {
      var tag := Keep(flv);
      if flv.body.AudioBody? {
        aacSeqHeaderAfterKey := tag;
      } else {
        avcSeqHeaderAfterKey := tag;
      }
      assert View() == if flv.body.AudioBody? then old(View()).(aacAfter := Some(flv.made))
                       else old(View()).(avcAfter := Some(flv.made));
      AddTagAfterKeyFrame(flv);
    }

    /** A key frame. */
    method StoreKeyFrame(flv: FlvTag)
      requires flv.Untouched() && Owned() && Unread() && Backed()
      modifies this`lastKeyFrame, this`sincePrevKeyFrame, this`since, this`kept, this`bufs, this`arrays
      modifies this`avcSeqHeaderBeforeKey, this`aacSeqHeaderBeforeKey
      ensures Owned() && Unread() && Backed()
      ensures View() == AtKeyFrame(r1, old(View()), flv.made)
      ensures fresh(bufs - old(bufs)) && fresh(arrays - old(arrays))
    {
      KeepKeyFrame(flv);
      CutSlice();
      PromoteHeaders();
    }

    method KeepKeyFrame(flv: FlvTag)
      requires flv.Untouched() && Owned() && Unread()
      modifies this`lastKeyFrame, this`kept, this`bufs
      ensures Owned() && Unread() && View() == old(View()).(lastKey := Some(flv.made))
      ensures fresh(bufs - old(bufs))
    {
      lastKeyFrame := Keep(flv);
    }

    /** The slice is cut to length zero and keeps its array; a nil slice stays nil, unless R1 makes it an
        empty one. */
    method CutSlice()
      requires Owned() && Backed()
      modifies this`sincePrevKeyFrame, this`since, this`arrays
      ensures Owned() && Backed() && fresh(arrays - old(arrays))
      ensures View() == old(View()).(since := Truncate(r1, old(View()).since))
    {
      if sincePrevKeyFrame.Slice? {
        sincePrevKeyFrame := sincePrevKeyFrame.(len := 0);
        since := Some([]);
      } else if r1 {
        var none := new FlvTag[0];
        sincePrevKeyFrame, arrays := Slice(none, 0), arrays + {none};
        since := Some([]);
      }
    }

    /** The headers seen since the last key frame become the headers before this one. */
    method PromoteHeaders()
      requires Owned()
      modifies this`avcSeqHeaderBeforeKey, this`aacSeqHeaderBeforeKey
      ensures Owned()
      ensures View() == old(View()).(avcBefore := OrElse(old(View()).avcAfter, old(View()).avcBefore),
                                     aacBefore := OrElse(old(View()).aacAfter, old(View()).aacBefore))
    {
      if avcSeqHeaderAfterKey != null {
        avcSeqHeaderBeforeKey := avcSeqHeaderAfterKey;
      }
      if aacSeqHeaderAfterKey != null {
        aacSeqHeaderBeforeKey := aacSeqHeaderAfterKey;
      }
    }

    /** The cache half of `Publish`. */
    method UpdateCache(flv: FlvTag)
      requires Valid() && flv.Untouched()
      modifies this, arrays
      ensures Valid() && log == old(log) + [flv.made] && flv.Untouched()
      ensures fresh(bufs - old(bufs)) && fresh(arrays - old(arrays))
    {
      UpdateFields(flv);
      RunSnoc(r1, log, flv.made);
      log := log + [flv.made];
    }

    method UpdateFields(flv: FlvTag)
      requires flv.Untouched() && Owned() && Unread() && Backed()
      modifies this, arrays
      ensures Owned() && Unread() && Backed() && log == old(log) && flv.Untouched()
      ensures View() == Step(r1, old(View()), flv.made)
      ensures fresh(bufs - old(bufs)) && fresh(arrays - old(arrays))
    {
      match flv.body {
        case ScriptBody(_) =>
          AddTagAfterKeyFrame(flv);
        case AudioBody(packet, _) =>
          if packet == AAC_SEQUENCE_HEADER {
            StoreHeader(flv);
          } else {
            AddTagAfterKeyFrame(flv);
          }
        case VideoBody(frame, packet, _) =>
          if packet == AVC_SEQUENCE_HEADER {
            StoreHeader(flv);
          } else if frame == KEY_FRAME {
            StoreKeyFrame(flv);
          } else {
            AddTagAfterKeyFrame(flv);
          }
      }
    }

    /** The cached tags `InitSub` replays, in order. */
    method Replayed() returns (cached: seq<FlvTag>)
      requires Owned() && Backed()
      ensures AllMade(cached) == TagCache.InitTags(View()) && forall t :: t in cached ==> t in kept
    {
      var first, last := avcSeqHeaderAfterKey, aacSeqHeaderAfterKey;
      if lastKeyFrame != null {
        first, last := avcSeqHeaderBeforeKey, aacSeqHeaderBeforeKey;
      }
      var since := Elements(sincePrevKeyFrame);
      cached := NonNil(first) + NonNil(lastKeyFrame) + NonNil(last) + since;
      AllMadeReplay(first, lastKeyFrame, last, since);
    }

    /** What `InitSub` submits: fresh views of them, sharing no buffer with the cache or each other. */
    method InitTags() returns (tags: seq<FlvTag>)
      requires Valid()
      ensures Copies(tags) && AllMade(tags) == TagCache.InitTags(View()) && fresh(AllBuffers(tags))
    {
      var cached := Replayed();
      tags := Clones(cached);
    }
  }

  // ---------------------------------------------------------------- views handed out

  ghost function AllBuffers(tags: seq<FlvTag>): set<Buffer> {
    set t | t in tags && t.Buf() != null :: t.Buf() as Buffer
  }

  /** No two tags share a buffer. */
  ghost predicate Apart(tags: seq<FlvTag>) {
    forall i, j | 0 <= i < j < |tags| :: tags[i].Buf() != null ==> tags[i].Buf() != tags[j].Buf()
  }

  /** Unread tags with a buffer each. */
  ghost predicate Copies(tags: seq<FlvTag>)
    reads AllBuffers(tags)
  {
    (forall i :: 0 <= i < |tags| ==> tags[i].Untouched()) && Apart(tags)
  }

  function NonNil(t: FlvTag?): seq<FlvTag> {
    if t == null then [] else [t]
  }

  /** One more view of a tag. */
  method AppendView(tags: seq<FlvTag>, t: FlvTag) returns (r: seq<FlvTag>)
    requires Copies(tags) && t.Untouched()
    ensures AllMade(r) == AllMade(tags) + [t.made]
    ensures Copies(r) && tags <= r
    ensures fresh(AllBuffers(r) - AllBuffers(tags))
  {
    var v := CloneView(t);
    r := tags + [v];
    AllMadeSnoc(tags, v);
  }

  /** A view of each of some unread tags. */
  method Clones(cached: seq<FlvTag>) returns (tags: seq<FlvTag>)
    requires forall t :: t in cached ==> t.Untouched()
    ensures Copies(tags) && AllMade(tags) == AllMade(cached) && fresh(AllBuffers(tags))
  {
    tags := [];
    for i := 0 to |cached|
      invariant Copies(tags) && fresh(AllBuffers(tags))
      invariant AllMade(tags) == AllMade(cached[..i])
    {
      tags := AppendView(tags, cached[i]);
      AllMadeSnoc(cached[..i], cached[i]);
      assert cached[..i + 1] == cached[..i] + [cached[i]];
    }
    assert cached[..|cached|] == cached;
  }
}
