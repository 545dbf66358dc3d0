/** Assigning output stream indices: the two track maps built in nested loops, and the index arithmetic. */
module Merger {
  /** The `InputTrackIDs` lists of the output tracks of one media type, in order. */
  type TrackLists = seq<seq<int>>

  datatype MediaType = Video | Audio | Other

  predicate Lists(lists: TrackLists, track: nat, id: int) {
    track < |lists| && id in lists[track]
  }

  /** The meaning of a track map: its domain is the union of the lists, and each ID maps to the
      greatest track listing it. */
  ghost predicate IsTrackMap(lists: TrackLists, m: map<int, int>) {
    && (forall id :: id in m ==>
          m[id] >= 0 && Lists(lists, m[id], id) && forall t :: t > m[id] ==> !Lists(lists, t, id))
    && (forall t, id :: Lists(lists, t, id) ==> id in m)
  }

  /** The loops over tracks and their IDs. */
  method FillTrackMap(lists: TrackLists) returns (m: map<int, int>)
    ensures IsTrackMap(lists, m)
  {
    m := map[];
    for idx := 0 to |lists|
      invariant IsTrackMap(lists[..idx], m)
    {
      ghost var before := m;
      var ids := lists[idx];
      for i := 0 to |ids|
        invariant m.Keys == before.Keys + set id | id in ids[..i]
        invariant forall id :: id in m ==> m[id] == if id in ids[..i] then idx else before[id]
      {
        m := m[ids[i] := idx];
        assert ids[..i + 1] == ids[..i] + [ids[i]];
      }
      assert ids[..|ids|] == ids;
      TrackAdded(lists, idx, before, m);
    }
    assert lists[..|lists|] == lists;
  }

  lemma TrackAdded(lists: TrackLists, idx: nat, before: map<int, int>, m: map<int, int>)
    requires idx < |lists| && IsTrackMap(lists[..idx], before)
    requires m.Keys == before.Keys + set id | id in lists[idx]
    requires forall id :: id in m ==> m[id] == if id in lists[idx] then idx else before[id]
    ensures IsTrackMap(lists[..idx + 1], m)
  {
    var l, l' := lists[..idx], lists[..idx + 1];
    forall t: nat, id ensures Lists(l', t, id) <==> Lists(l, t, id) || (t == idx && id in lists[idx]) {
    }
  }

  /** A Go map lookup: a missing key gives zero. */
  function Index(m: map<int, int>, streamIndex: int): int {
    if streamIndex in m then m[streamIndex] else 0
  }

  /** The merger object: the lists of the configuration and the maps made from them. */
  class FrameStreamsMerger {
    const videoTracks: TrackLists
    const audioTracks: TrackLists
    var allowedVideoTrackIDMap: map<int, int>
    var allowedAudioTrackIDMap: map<int, int>

    ghost predicate Valid()
      reads this
    {
      && IsTrackMap(videoTracks, allowedVideoTrackIDMap)
      && IsTrackMap(audioTracks, allowedAudioTrackIDMap)
    }

    /** newFrameStreamsMerger */
    constructor (videoTracks: TrackLists, audioTracks: TrackLists)
      ensures Valid() && this.videoTracks == videoTracks && this.audioTracks == audioTracks
    {
      this.videoTracks, this.audioTracks := videoTracks, audioTracks;
      var video := FillTrackMap(videoTracks);
      var audio := FillTrackMap(audioTracks);
      allowedVideoTrackIDMap, allowedAudioTrackIDMap := video, audio;
    }

    /** StreamIndexAssign: at most one output index, and none only for a media type without tracks. */
    method StreamIndexAssign(media: MediaType, streamIndex: int) returns (out: seq<int>)
      requires Valid()
      ensures out == Assign(videoTracks, audioTracks, allowedVideoTrackIDMap, allowedAudioTrackIDMap,
                            media, streamIndex)
      ensures Disciplined(videoTracks) && Disciplined(audioTracks) && streamIndex >= 0 && out != [] ==>
                InRange(|allowedVideoTrackIDMap|, |allowedAudioTrackIDMap|, media, out[0])
    {
      match media {
        case Video =>
          if |videoTracks| == 0 {
            out := [];
          } else {
            out := [if streamIndex in allowedVideoTrackIDMap then allowedVideoTrackIDMap[streamIndex] else 0];
          }
        case Audio =>
          if |audioTracks| == 0 {
            out := [];
          } else {
            var base := |allowedVideoTrackIDMap|;
            out := [base + if streamIndex in allowedAudioTrackIDMap then allowedAudioTrackIDMap[streamIndex] else 0];
          }
        case Other =>
          out := [|allowedVideoTrackIDMap| + |allowedAudioTrackIDMap| + streamIndex];
      }
      if Disciplined(videoTracks) && Disciplined(audioTracks) && streamIndex >= 0 {
        Band(videoTracks, audioTracks, allowedVideoTrackIDMap, allowedAudioTrackIDMap, media, streamIndex);
      }
    }
  }

  function Assign(video: TrackLists, audio: TrackLists, vm: map<int, int>, am: map<int, int>,
                  media: MediaType, streamIndex: int): seq<int>
  {
    match media
    case Video => if video == [] then [] else [Index(vm, streamIndex)]
    case Audio => if audio == [] then [] else [|vm| + Index(am, streamIndex)]
    case Other => [|vm| + |am| + streamIndex]
  }

  // ---------------------------------------------------------------- ranges

  /** Every track lists some ID, and no two tracks list the same one. */
  predicate Disciplined(lists: TrackLists) {
    && (forall t :: 0 <= t < |lists| ==> lists[t] != [])
    && (forall t, u :: 0 <= t < u < |lists| ==> forall id :: id in lists[t] ==> id !in lists[u])
  }

  /** The greatest track that lists anything; zero when none does. */
  function LastListing(lists: TrackLists): (r: nat)
    ensures forall t :: r < t < |lists| ==> lists[t] == []
    ensures r > 0 ==> r < |lists| && lists[r] != []
  {
    if lists == [] then 0
    else if lists[|lists| - 1] != [] then |lists| - 1
    else LastListing(lists[..|lists| - 1])
  }

  /** A media type's indices stay below the size of its map exactly when more distinct IDs are listed
      than the number of the last track that lists any. */
  lemma RangeExactlyWhen(lists: TrackLists, m: map<int, int>)
    requires IsTrackMap(lists, m) && lists != []
    ensures (forall s :: 0 <= Index(m, s) < |m|) <==> |m| > LastListing(lists)
  {
    var last := LastListing(lists);
    if forall s :: 0 <= Index(m, s) < |m| {
      assert Index(m, 0) < |m|;
      if last > 0 {
        var id := lists[last][0];
        assert Lists(lists, last, id);
        assert m[id] == last;
        assert Index(m, id) < |m|;
      }
    }
    if |m| > last {
      forall s ensures 0 <= Index(m, s) < |m| {
        if s in m {
          assert Lists(lists, m[s], s);
        }
      }
    }
  }

  /** Pigeonhole: non-empty, pairwise disjoint lists hold at least as many IDs as there are tracks. */
  lemma Pigeonhole(lists: TrackLists, m: map<int, int>)
    requires IsTrackMap(lists, m) && Disciplined(lists)
    ensures |m| >= |lists|
  {
    Representatives(lists, |lists|);
    var reps := set t | 0 <= t < |lists| :: lists[t][0];
    forall id | id in reps ensures id in m {
      var t :| 0 <= t < |lists| && id == lists[t][0];
      assert Lists(lists, t, id);
    }
    SubsetSize(reps, m.Keys);
  }

  lemma {:induction false} Representatives(lists: TrackLists, k: nat)
    requires Disciplined(lists) && k <= |lists|
    ensures |set t | 0 <= t < k :: lists[t][0]| == k
  {
    var reps := set t | 0 <= t < k :: lists[t][0];
    if k > 0 {
      Representatives(lists, k - 1);
      var front := set t | 0 <= t < k - 1 :: lists[t][0];
      assert reps == front + {lists[k - 1][0]};
      assert lists[k - 1][0] in lists[k - 1];
      forall t | 0 <= t < k - 1 ensures lists[t][0] != lists[k - 1][0] {
        assert lists[t][0] in lists[t];
      }
    } else {
      assert reps == {};
    }
  }

  lemma SubsetSize<T>(a: set<T>, b: set<T>)
    requires a <= b
    ensures |a| <= |b|
  {
    assert b == a + (b - a);
  }

  /** The band of output indices of a media type, given the sizes of the two maps. */
  predicate InRange(videoIDs: nat, audioIDs: nat, media: MediaType, index: int) {
    match media
    case Video => 0 <= index < videoIDs
    case Audio => videoIDs <= index < videoIDs + audioIDs
    case Other => videoIDs + audioIDs <= index
  }

  /** Range disjointness. For non-negative stream indices each assigned index lies in the band of its
      media type, so different media types never share one; and other media keep theirs apart. */
  lemma RangesAreDisjoint(video: TrackLists, audio: TrackLists, vm: map<int, int>, am: map<int, int>)
    requires IsTrackMap(video, vm) && IsTrackMap(audio, am) && Disciplined(video) && Disciplined(audio)
    ensures forall media, s :: s >= 0 ==>
              BandHolds(video, audio, vm, am, media, s)
    ensures forall media, media', s, s' :: s >= 0 && s' >= 0 && media != media' ==>
              NoneShared(Assign(video, audio, vm, am, media, s), Assign(video, audio, vm, am, media', s'))
    ensures forall s, s' :: s != s' ==>
              NoneShared(Assign(video, audio, vm, am, Other, s), Assign(video, audio, vm, am, Other, s'))
  {
    forall media, s | s >= 0 ensures BandHolds(video, audio, vm, am, media, s) {
      Band(video, audio, vm, am, media, s);
    }
    forall media, media', s, s' | s >= 0 && s' >= 0 && media != media'
      ensures NoneShared(Assign(video, audio, vm, am, media, s), Assign(video, audio, vm, am, media', s'))
    {
      Band(video, audio, vm, am, media, s);
      Band(video, audio, vm, am, media', s');
    }
  }

  predicate BandHolds(video: TrackLists, audio: TrackLists, vm: map<int, int>, am: map<int, int>,
                      media: MediaType, streamIndex: int)
  {
    var out := Assign(video, audio, vm, am, media, streamIndex);
    out != [] ==> InRange(|vm|, |am|, media, out[0])
  }

  predicate NoneShared(out: seq<int>, out': seq<int>) {
    forall i :: i in out ==> i !in out'
  }

  lemma Band(video: TrackLists, audio: TrackLists, vm: map<int, int>, am: map<int, int>,
             media: MediaType, streamIndex: int)
    requires IsTrackMap(video, vm) && IsTrackMap(audio, am) && Disciplined(video) && Disciplined(audio)
    requires streamIndex >= 0
    ensures BandHolds(video, audio, vm, am, media, streamIndex)
  {
    if media == Video && video != [] {
      Pigeonhole(video, vm);
      RangeExactlyWhen(video, vm);
    } else if media == Audio && audio != [] {
      Pigeonhole(audio, am);
      RangeExactlyWhen(audio, am);
    }
  }

  /** Which index a stream gets: a listed video ID its greatest listing track, a listed audio ID that track
      past the video IDs, an unlisted one the first place of its band, and other streams consecutive indices
      from the end of the audio band. None exactly for video or audio without tracks. */
  lemma AssignedPlace(video: TrackLists, audio: TrackLists, vm: map<int, int>, am: map<int, int>, s: int)
    requires IsTrackMap(video, vm) && IsTrackMap(audio, am)
    ensures Assign(video, audio, vm, am, Video, s) == [] <==> video == []
    ensures Assign(video, audio, vm, am, Audio, s) == [] <==> audio == []
    ensures forall t: nat :: Greatest(video, t, s) ==> Assign(video, audio, vm, am, Video, s) == [t]
    ensures forall t: nat :: Greatest(audio, t, s) ==> Assign(video, audio, vm, am, Audio, s) == [|vm| + t]
    ensures video != [] && Unheard(video, s) ==> Assign(video, audio, vm, am, Video, s) == [0]
    ensures audio != [] && Unheard(audio, s) ==> Assign(video, audio, vm, am, Audio, s) == [|vm|]
    ensures Assign(video, audio, vm, am, Other, s) == [|vm| + |am| + s]
  {
    GreatestIsMapped(video, vm, s);
    GreatestIsMapped(audio, am, s);
  }

  predicate Greatest(lists: TrackLists, t: nat, id: int) {
    Lists(lists, t, id) && forall u :: t < u < |lists| ==> !Lists(lists, u, id)
  }

  predicate Unheard(lists: TrackLists, id: int) {
    forall t :: 0 <= t < |lists| ==> !Lists(lists, t, id)
  }

  lemma GreatestIsMapped(lists: TrackLists, m: map<int, int>, id: int)
    requires IsTrackMap(lists, m)
    ensures forall t: nat :: Greatest(lists, t, id) ==> lists != [] && id in m && m[id] == t
    ensures Unheard(lists, id) ==> id !in m
  {
    forall t: nat | Greatest(lists, t, id) ensures lists != [] && id in m && m[id] == t {
      assert Lists(lists, t, id);
      assert Lists(lists, m[id], id);
    }
  }

  /** The sums stay within a 64-bit `int`: stream indices are 32 bits wide, and no list or map has more
      than 2^60 entries. */
  lemma SumsFit(video: TrackLists, audio: TrackLists, vm: map<int, int>, am: map<int, int>,
                media: MediaType, streamIndex: int)
    requires IsTrackMap(video, vm) && IsTrackMap(audio, am)
    requires |video| <= ENTRIES && |audio| <= ENTRIES && |vm| <= ENTRIES && |am| <= ENTRIES
    requires -0x8000_0000 <= streamIndex < 0x8000_0000
    ensures forall i :: i in Assign(video, audio, vm, am, media, streamIndex) ==>
              -0x8000_0000_0000_0000 <= i < 0x8000_0000_0000_0000
  {
    assert streamIndex in vm ==> Lists(video, vm[streamIndex], streamIndex);
    assert streamIndex in am ==> Lists(audio, am[streamIndex], streamIndex);
  }

  const ENTRIES: int := 0x1000_0000_0000_0000

  // ---------------------------------------------------------------- when indices are shared

  /** The offsets a media type reaches with non-negative stream indices: zero, because some index is in
      no map, and what the map gives the listed ones. */
  ghost predicate Reached(m: map<int, int>, v: int) {
    v == 0 || exists s :: s >= 0 && s in m && m[s] == v
  }

  ghost predicate AllBelow(m: map<int, int>, bound: int) {
    forall v :: Reached(m, v) ==> v < bound
  }

  ghost predicate Shifted(vm: map<int, int>, am: map<int, int>) {
    forall v, a :: Reached(vm, v) && Reached(am, a) ==> v != |vm| + a
  }

  /** No two different media types share an output index, whatever the stream indices. */
  ghost predicate NothingShared(video: TrackLists, audio: TrackLists, vm: map<int, int>, am: map<int, int>) {
    forall media, media', s, s' :: s >= 0 && s' >= 0 && media != media' ==>
      NoneShared(Assign(video, audio, vm, am, media, s), Assign(video, audio, vm, am, media', s'))
  }

  /** The condition on the offsets alone. */
  ghost predicate OffsetsApart(video: TrackLists, audio: TrackLists, vm: map<int, int>, am: map<int, int>) {
    && (video != [] && audio != [] ==> Shifted(vm, am))
    && (video != [] ==> AllBelow(vm, |vm| + |am|))
    && (audio != [] ==> AllBelow(am, |am|))
  }

  function Beyond(ids: seq<int>): (s: nat)
    ensures forall i :: 0 <= i < |ids| ==> ids[i] < s
  {
    if ids == [] then 0
    else
      var s, id := Beyond(ids[..|ids| - 1]), ids[|ids| - 1];
      if s <= id then id + 1 else s
  }

  /** A stream index no track lists. */
  function Unlisted(lists: TrackLists): (s: nat)
    ensures forall t, id :: Lists(lists, t, id) ==> id < s
  {
    if lists == [] then 0
    else
      var s, last := Unlisted(lists[..|lists| - 1]), Beyond(lists[|lists| - 1]);
      assert forall t, id :: Lists(lists, t, id) ==> t == |lists| - 1 || Lists(lists[..|lists| - 1], t, id);
      if s <= last then last else s
  }

  lemma ReachedByIndex(lists: TrackLists, m: map<int, int>, v: int) returns (s: nat)
    requires IsTrackMap(lists, m) && Reached(m, v)
    ensures Index(m, s) == v
  {
    if exists k :: k >= 0 && k in m && m[k] == v {
      s :| s in m && m[s] == v;
    } else {
      s := Unlisted(lists);
    }
  }

  lemma IndexIsReached(m: map<int, int>, s: nat)
    ensures Reached(m, Index(m, s))
  {
  }

  /** For any configuration: what sharing no index comes to in terms of the offsets alone. */
  lemma NothingSharedExactlyWhen(video: TrackLists, audio: TrackLists, vm: map<int, int>, am: map<int, int>)
    requires IsTrackMap(video, vm) && IsTrackMap(audio, am)
    ensures NothingShared(video, audio, vm, am) <==> OffsetsApart(video, audio, vm, am)
  {
    if NothingShared(video, audio, vm, am) {
      VideoApart(video, audio, vm, am);
      AudioApart(video, audio, vm, am);
    }
    if OffsetsApart(video, audio, vm, am) {
      forall media, media', s, s' | s >= 0 && s' >= 0 && media != media'
        ensures NoneShared(Assign(video, audio, vm, am, media, s), Assign(video, audio, vm, am, media', s'))
      {
        IndexIsReached(vm, s);
        IndexIsReached(vm, s');
        IndexIsReached(am, s);
        IndexIsReached(am, s');
      }
    }
  }

  lemma VideoApart(video: TrackLists, audio: TrackLists, vm: map<int, int>, am: map<int, int>)
    requires IsTrackMap(video, vm) && IsTrackMap(audio, am) && NothingShared(video, audio, vm, am)
    ensures video != [] && audio != [] ==> Shifted(vm, am)
    ensures video != [] ==> AllBelow(vm, |vm| + |am|)
  {
    if video != [] {
      forall v | Reached(vm, v) ensures v < |vm| + |am| {
        var s := ReachedByIndex(video, vm, v);
        var rest := v - |vm| - |am|;
        assert v in Assign(video, audio, vm, am, Other, rest);
        assert rest >= 0 ==>
                 NoneShared(Assign(video, audio, vm, am, Other, rest), Assign(video, audio, vm, am, Video, s));
      }
      forall v, a | audio != [] && Reached(vm, v) && Reached(am, a) ensures v != |vm| + a {
        var s := ReachedByIndex(video, vm, v);
        var s' := ReachedByIndex(audio, am, a);
        assert v in Assign(video, audio, vm, am, Video, s);
        assert |vm| + a in Assign(video, audio, vm, am, Audio, s');
      }
    }
  }

  lemma AudioApart(video: TrackLists, audio: TrackLists, vm: map<int, int>, am: map<int, int>)
    requires IsTrackMap(video, vm) && IsTrackMap(audio, am) && NothingShared(video, audio, vm, am)
    ensures audio != [] ==> AllBelow(am, |am|)
  {
    if audio != [] {
      forall a | Reached(am, a) ensures a < |am| {
        var s := ReachedByIndex(audio, am, a);
        var rest := a - |am|;
        assert |vm| + a in Assign(video, audio, vm, am, Other, rest);
        assert rest >= 0 ==>
                 NoneShared(Assign(video, audio, vm, am, Other, rest), Assign(video, audio, vm, am, Audio, s));
      }
    }
  }

  /** For the configurations the server accepts, with at most one track of a media type, the discipline
      is the exact condition: a track that lists no ID is what makes media types collide. */
  lemma SharingExactlyWhen(video: TrackLists, audio: TrackLists, vm: map<int, int>, am: map<int, int>)
    requires IsTrackMap(video, vm) && IsTrackMap(audio, am) && |video| <= 1 && |audio| <= 1
    ensures NothingShared(video, audio, vm, am) <==> Disciplined(video) && Disciplined(audio)
  {
    NothingSharedExactlyWhen(video, audio, vm, am);
    SingleTrack(video, vm);
    SingleTrack(audio, am);
    assert Reached(vm, 0) && Reached(am, 0);
  }

  lemma SingleTrack(lists: TrackLists, m: map<int, int>)
    requires IsTrackMap(lists, m) && |lists| <= 1
    ensures forall v :: Reached(m, v) <==> v == 0
    ensures lists == [] ==> |m| == 0
    ensures Disciplined(lists) <==> lists == [] || |m| > 0
  {
    if lists == [] || lists[0] == [] {
      assert forall id :: id !in m;
      assert m == map[];
    }
    if lists != [] && lists[0] != [] {
      assert Lists(lists, 0, lists[0][0]);
    }
  }

  /** An accepted configuration that collides: the video track lists nothing, so every video stream gets
      the index of the first audio track. */
  lemma SharedIndex(vm: map<int, int>, am: map<int, int>, s: nat)
    requires IsTrackMap([[]], vm) && IsTrackMap([[5]], am)
    ensures Assign([[]], [[5]], vm, am, Video, s) == Assign([[]], [[5]], vm, am, Audio, 5) == [0]
  {
    var video: TrackLists, audio: TrackLists := [[]], [[5]];
    assert video[0] == [] && Lists(audio, 0, 5);
    SingleTrack(video, vm);
    IndexIsReached(vm, s);
    assert am[5] == 0;
  }
}
