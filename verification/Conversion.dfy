/**
 The encoder configuration, its wire message, and the conversions between them. Go's `int` and `uint`
 are 64 bits wide; every narrowing or sign-changing conversion is written out. A panic of the original
 is `None`. The nil slice and the empty one are the same sequence.
 */
module Conversion {
  import opened Wrappers

  const TWO_8: int := 0x100
  const TWO_32: int := 0x1_0000_0000
  const TWO_63: int := 0x8000_0000_0000_0000
  const TWO_64: int := 0x1_0000_0000_0000_0000

  type UInt8 = x: int | 0 <= x < TWO_8
  type UInt32 = x: int | 0 <= x < TWO_32
  type UInt64 = x: int | 0 <= x < TWO_64
  type Int64 = x: int | -TWO_63 <= x < TWO_63

  /** uint64(in) */
  function ToUInt64(x: Int64): UInt64 { if x < 0 then x + TWO_64 else x }

  /** int(in) */
  function ToInt64(x: UInt64): Int64 { if x < TWO_63 then x else x - TWO_64 }

  /** uint32(in) */
  function ToUInt32(x: UInt64): UInt32 { x % TWO_32 }

  /** uint8(in) */
  function ToUInt8(x: UInt32): UInt8 { x % TWO_8 }

  // ---------------------------------------------------------------- the configuration

  /** Codecs are numbers on both sides: 0 is undefined here, and the four defined ones are 1 to 4; on
      the wire they are 0 to 3. */
  const CODECS: nat := 4

  /** The two kinds of track differ in their codecs and in the qualities they support. */
  datatype Media = AudioTrack | VideoTrack

  /** The constants of the configuration, by name. */
  function CodecName(media: Media, codec: UInt64): Option<string> {
    match (media, codec)
    case (_, 1) => Some("copy")
    case (AudioTrack, 2) => Some("aac")
    case (AudioTrack, 3) => Some("vorbis")
    case (AudioTrack, 4) => Some("opus")
    case (VideoTrack, 2) => Some("h264")
    case (VideoTrack, 3) => Some("hevc")
    case (VideoTrack, 4) => Some("av1")
    case _ => None
  }

  /** The enumerations of the message, by name. */
  function WireCodecName(media: Media, codec: int): Option<string> {
    match (media, codec)
    case (_, 0) => Some("copy")
    case (AudioTrack, 1) => Some("aac")
    case (AudioTrack, 2) => Some("vorbis")
    case (AudioTrack, 3) => Some("opus")
    case (VideoTrack, 1) => Some("h264")
    case (VideoTrack, 2) => Some("hevc")
    case (VideoTrack, 3) => Some("av1")
    case _ => None
  }

  /** The interface values the conversion knows, the nil interface, and everything else. */
  datatype Quality = NilQuality | ConstantBitrate(bitrate: UInt64) | ConstantQuality(quality: UInt8) | OtherQuality

  datatype EncodeConfig = EncodeConfig(codec: UInt64, quality: Quality, customOptions: seq<string>)

  datatype TrackConfig = TrackConfig(inputTrackIDs: seq<Int64>, config: EncodeConfig)

  datatype EncodersConfig = EncodersConfig(audio: seq<TrackConfig>, video: seq<TrackConfig>)

  // ---------------------------------------------------------------- the message

  datatype QualityMsg = UnsetQuality | BitrateMsg(constantBitrate: UInt32) | ConstantMsg(constantQuality: UInt32)

  datatype EncodeMsg = EncodeMsg(codec: int, quality: Option<QualityMsg>)

  datatype TrackMsg = TrackMsg(inputTrackIDs: seq<UInt64>, encode: Option<EncodeMsg>)

  /** Message pointers may be nil. */
  datatype ConfigMsg = ConfigMsg(enable: bool, audio: seq<Option<TrackMsg>>, video: seq<Option<TrackMsg>>)

  // ---------------------------------------------------------------- slices

  /** What `convertSlice` computes for a conversion that does not panic. */
  function MapSeq<A, B>(f: A -> B, s: seq<A>): (r: seq<B>)
    ensures |r| == |s|
    ensures forall i :: 0 <= i < |s| ==> r[i] == f(s[i])
  {
    if s == [] then [] else MapSeq(f, s[..|s| - 1]) + [f(s[|s| - 1])]
  }

  /** What it computes for one that may: `None` when any element panics. */
  function TryMap<A, B>(f: A -> Option<B>, s: seq<A>): (r: Option<seq<B>>)
    ensures r.Some? <==> forall i :: 0 <= i < |s| ==> f(s[i]).Some?
    ensures r.Some? ==> |r.value| == |s| && forall i :: 0 <= i < |s| ==> f(s[i]) == Some(r.value[i])
  {
    if s == [] then Some([])
    else
      var front, last := TryMap(f, s[..|s| - 1]), f(s[|s| - 1]);
      assert forall i :: 0 <= i < |s| - 1 ==> s[..|s| - 1][i] == s[i];
      if front.None? || last.None? then None else Some(front.value + [last.value])
  }

  /** convertSlice: appends to the result in a loop; a panic of the conversion ends it. */
  method ConvertSlice<A, B>(tracks: seq<A>, convFunc: A -> Option<B>) returns (result: Option<seq<B>>)
    ensures result == TryMap(convFunc, tracks)
    ensures (forall i :: 0 <= i < |tracks| ==> convFunc(tracks[i]).Some?) ==>
              result.Some? && |result.value| == |tracks|
              && forall i :: 0 <= i < |tracks| ==> Some(result.value[i]) == convFunc(tracks[i])
  {
    var converted: seq<B> := [];
    for i := 0 to |tracks|
      invariant TryMap(convFunc, tracks[..i]) == Some(converted)
    {
      var item := convFunc(tracks[i]);
      assert tracks[..i + 1][..i] == tracks[..i];
      if item.None? {
        return None;
      }
      converted := converted + [item.value];
    }
    assert tracks[..|tracks|] == tracks;
    return Some(converted);
  }

  // ---------------------------------------------------------------- to the message

  function CodecToMsg(codec: UInt64): Option<int> {
    if 1 <= codec <= CODECS then Some(codec - 1) else None
  }

  function QualityToMsg(media: Media, q: Quality): Option<QualityMsg> {
    match q
    case ConstantBitrate(b) => Some(BitrateMsg(ToUInt32(b)))
    case ConstantQuality(n) => if media == VideoTrack then Some(ConstantMsg(n)) else None
    case NilQuality => None
    case OtherQuality => None
  }

  function EncodeToMsg(media: Media, c: EncodeConfig): Option<EncodeMsg> {
    var codec, quality := CodecToMsg(c.codec), QualityToMsg(media, c.quality);
    if codec.None? || quality.None? then None else Some(EncodeMsg(codec.value, quality))
  }

  function TrackToMsg(media: Media, t: TrackConfig): Option<Option<TrackMsg>> {
    var encode := EncodeToMsg(media, t.config);
    if encode.None? then None else Some(Some(TrackMsg(MapSeq(ToUInt64, t.inputTrackIDs), encode)))
  }

  /** EncoderConfigToThrift */
  function ToMsg(enable: bool, cfg: EncodersConfig): Option<ConfigMsg> {
    var audio := TryMap((t: TrackConfig) => TrackToMsg(AudioTrack, t), cfg.audio);
    var video := TryMap((t: TrackConfig) => TrackToMsg(VideoTrack, t), cfg.video);
    if audio.None? || video.None? then None else Some(ConfigMsg(enable, audio.value, video.value))
  }

  // ---------------------------------------------------------------- from the message

  function CodecFromMsg(codec: int): Option<UInt64> {
    if 0 <= codec < CODECS then Some(codec + 1) else None
  }

  function QualityFromMsg(media: Media, q: Option<QualityMsg>): Option<Quality> {
    match q
    case None => None
    case Some(UnsetQuality) => None
    case Some(BitrateMsg(b)) => Some(ConstantBitrate(b))
    case Some(ConstantMsg(n)) => if media == VideoTrack then Some(ConstantQuality(ToUInt8(n))) else None
  }

  function EncodeFromMsg(media: Media, m: Option<EncodeMsg>): Option<EncodeConfig> {
    if m.None? then None
    else
      var codec, quality := CodecFromMsg(m.value.codec), QualityFromMsg(media, m.value.quality);
      if codec.None? || quality.None? then None else Some(EncodeConfig(codec.value, quality.value, []))
  }

  function TrackFromMsg(media: Media, m: Option<TrackMsg>): Option<TrackConfig> {
    if m.None? then None
    else
      var config := EncodeFromMsg(media, m.value.encode);
      if config.None? then None else Some(TrackConfig(MapSeq(ToInt64, m.value.inputTrackIDs), config.value))
  }

  /** EncoderConfigFromThrift */
  function FromMsg(m: ConfigMsg): Option<(EncodersConfig, bool)> {
    var audio := TryMap((t: Option<TrackMsg>) => TrackFromMsg(AudioTrack, t), m.audio);
    var video := TryMap((t: Option<TrackMsg>) => TrackFromMsg(VideoTrack, t), m.video);
    if audio.None? || video.None? then None else Some((EncodersConfig(audio.value, video.value), m.enable))
  }

  // ---------------------------------------------------------------- round trips

  /** A track the conversion accepts: a defined codec and a quality its media type supports. */
  predicate Supported(media: Media, t: TrackConfig) {
    && 1 <= t.config.codec <= CODECS
    && (t.config.quality.ConstantBitrate? || (media == VideoTrack && t.config.quality.ConstantQuality?))
  }

  predicate AllSupported(cfg: EncodersConfig) {
    && (forall i :: 0 <= i < |cfg.audio| ==> Supported(AudioTrack, cfg.audio[i]))
    && (forall i :: 0 <= i < |cfg.video| ==> Supported(VideoTrack, cfg.video[i]))
  }

  /** What survives the wire: bitrates modulo 2^32, no custom options. */
  function Carried(t: TrackConfig): TrackConfig {
    var q := t.config.quality;
    t.(config := t.config.(
       quality := if q.ConstantBitrate? then ConstantBitrate(q.bitrate % TWO_32) else q,
       customOptions := []))
  }

  function WithoutOptions(t: TrackConfig): TrackConfig {
    t.(config := t.config.(customOptions := []))
  }

  predicate SmallBitrate(t: TrackConfig) {
    t.config.quality.ConstantBitrate? ==> t.config.quality.bitrate < TWO_32
  }

  /** Both directions keep the name of the codec and panic exactly on those that have none. */
  lemma CodecNamesKept(media: Media, codec: UInt64, wire: int)
    ensures CodecToMsg(codec).Some? <==> CodecName(media, codec).Some?
    ensures CodecToMsg(codec).Some? ==> WireCodecName(media, CodecToMsg(codec).value) == CodecName(media, codec)
    ensures CodecFromMsg(wire).Some? <==> WireCodecName(media, wire).Some?
    ensures CodecFromMsg(wire).Some? ==> CodecName(media, CodecFromMsg(wire).value) == WireCodecName(media, wire)
  {
  }

  predicate AllSmallBitrates(cfg: EncodersConfig) {
    && (forall i :: 0 <= i < |cfg.audio| ==> SmallBitrate(cfg.audio[i]))
    && (forall i :: 0 <= i < |cfg.video| ==> SmallBitrate(cfg.video[i]))
  }

  /** How a track travels: the IDs congruent modulo 2^64, those that are not negative as themselves; the
      codec under its name; the bitrate modulo 2^32, the constant quality as itself. */
  predicate TravelsAs(media: Media, t: TrackConfig, m: Option<TrackMsg>) {
    && m.Some? && m.value.encode.Some?
    && var ids, e := m.value.inputTrackIDs, m.value.encode.value;
    && |ids| == |t.inputTrackIDs|
    && (forall i :: 0 <= i < |ids| ==>
          && (ids[i] - t.inputTrackIDs[i]) % TWO_64 == 0
          && (t.inputTrackIDs[i] >= 0 ==> ids[i] == t.inputTrackIDs[i]))
    && WireCodecName(media, e.codec) == CodecName(media, t.config.codec)
    && e.quality == Some(match t.config.quality
                         case ConstantBitrate(b) => BitrateMsg(b % TWO_32)
                         case ConstantQuality(n) => ConstantMsg(n)
                         case _ => UnsetQuality)
  }

  lemma TrackTravels(media: Media, t: TrackConfig)
    requires Supported(media, t)
    ensures TrackToMsg(media, t).Some? && TravelsAs(media, t, TrackToMsg(media, t).value)
  {
    CodecNamesKept(media, t.config.codec, 0);
  }

  /** The message for a supported configuration: the flag as given, and each track, in order, under its own
      media type. */
  lemma ConfigTravels(enable: bool, cfg: EncodersConfig)
    requires AllSupported(cfg)
    ensures ToMsg(enable, cfg).Some?
    ensures var m := ToMsg(enable, cfg).value;
      && m.enable == enable && |m.audio| == |cfg.audio| && |m.video| == |cfg.video|
      && (forall i :: 0 <= i < |m.audio| ==> TravelsAs(AudioTrack, cfg.audio[i], m.audio[i]))
      && (forall i :: 0 <= i < |m.video| ==> TravelsAs(VideoTrack, cfg.video[i], m.video[i]))
  {
    ConfigThereAndBack(enable, cfg);
    var m := ToMsg(enable, cfg).value;
    forall i | 0 <= i < |cfg.audio| ensures TravelsAs(AudioTrack, cfg.audio[i], m.audio[i]) {
      TrackTravels(AudioTrack, cfg.audio[i]);
    }
    forall i | 0 <= i < |cfg.video| ensures TravelsAs(VideoTrack, cfg.video[i], m.video[i]) {
      TrackTravels(VideoTrack, cfg.video[i]);
    }
  }

  /** Two mappings of a sequence agree exactly when they agree on its elements. */
  lemma MapsAgree<A, B>(f: A -> B, g: A -> B, s: seq<A>)
    ensures MapSeq(f, s) == MapSeq(g, s) <==> forall i :: 0 <= i < |s| ==> f(s[i]) == g(s[i])
  {
    var r, q := MapSeq(f, s), MapSeq(g, s);
    if r == q {
      forall i | 0 <= i < |s| ensures f(s[i]) == g(s[i]) {
        assert r[i] == q[i];
      }
    }
  }

  /** Two's-complement wrap-around is undone, from either side. */
  lemma IDsThereAndBack(ids: seq<Int64>)
    ensures MapSeq(ToInt64, MapSeq(ToUInt64, ids)) == ids
  {
    var wire := MapSeq(ToUInt64, ids);
    var back := MapSeq(ToInt64, wire);
    forall i | 0 <= i < |ids| ensures back[i] == ids[i] {
      assert back[i] == ToInt64(wire[i]);
    }
  }

  lemma IDsBackAndThere(wire: seq<UInt64>)
    ensures MapSeq(ToUInt64, MapSeq(ToInt64, wire)) == wire
  {
    var ids := MapSeq(ToInt64, wire);
    var back := MapSeq(ToUInt64, ids);
    forall i | 0 <= i < |wire| ensures back[i] == wire[i] {
      assert back[i] == ToUInt64(ids[i]);
    }
  }

  lemma QualityThereAndBack(media: Media, q: Quality)
    ensures var m := QualityToMsg(media, q);
      && (m.Some? <==> q.ConstantBitrate? || (media == VideoTrack && q.ConstantQuality?))
      && (m.Some? ==> QualityFromMsg(media, m)
                      == Some(if q.ConstantBitrate? then ConstantBitrate(q.bitrate % TWO_32) else q))
  {
  }

  lemma TrackThereAndBack(media: Media, t: TrackConfig)
    ensures TrackToMsg(media, t).Some? <==> Supported(media, t)
    ensures Supported(media, t) ==> TrackFromMsg(media, TrackToMsg(media, t).value) == Some(Carried(t))
  {
    IDsThereAndBack(t.inputTrackIDs);
    QualityThereAndBack(media, t.config.quality);
  }

  lemma {:induction false} TracksThereAndBack(media: Media, tracks: seq<TrackConfig>)
    ensures var to := TryMap((t: TrackConfig) => TrackToMsg(media, t), tracks);
      && (to.Some? <==> forall i :: 0 <= i < |tracks| ==> Supported(media, tracks[i]))
      && (to.Some? ==>
            TryMap((m: Option<TrackMsg>) => TrackFromMsg(media, m), to.value) == Some(MapSeq(Carried, tracks)))
  {
    forall i | 0 <= i < |tracks|
      ensures TrackToMsg(media, tracks[i]).Some? <==> Supported(media, tracks[i])
      ensures Supported(media, tracks[i]) ==>
                TrackFromMsg(media, TrackToMsg(media, tracks[i]).value) == Some(Carried(tracks[i]))
    {
      TrackThereAndBack(media, tracks[i]);
    }
    var to := TryMap((t: TrackConfig) => TrackToMsg(media, t), tracks);
    if to.Some? {
      MapsUndone((m: Option<TrackMsg>) => TrackFromMsg(media, m), Carried, to.value, tracks);
    }
  }

  /** A fallible conversion that gives every element what `g` gives its origin. */
  lemma {:induction false} MapsUndone<A, B, C>(f: A -> Option<B>, g: C -> B, s: seq<A>, origin: seq<C>)
    requires |s| == |origin| && forall i :: 0 <= i < |s| ==> f(s[i]) == Some(g(origin[i]))
    ensures TryMap(f, s) == Some(MapSeq(g, origin))
  {
    var r, q := TryMap(f, s), MapSeq(g, origin);
    assert r.Some?;
    forall i | 0 <= i < |s| ensures r.value[i] == q[i] {
      assert f(s[i]) == Some(r.value[i]);
    }
    assert r.value == q;
  }

  /** Configuration to message and back, on every configuration: it panics exactly on unsupported
      tracks, and otherwise returns the configuration with custom options dropped and bitrates modulo
      2^32. */
  lemma ConfigThereAndBack(enable: bool, cfg: EncodersConfig)
    ensures ToMsg(enable, cfg).Some? <==> AllSupported(cfg)
    ensures AllSupported(cfg) ==>
              FromMsg(ToMsg(enable, cfg).value)
              == Some((EncodersConfig(MapSeq(Carried, cfg.audio), MapSeq(Carried, cfg.video)), enable))
  {
    TracksThereAndBack(AudioTrack, cfg.audio);
    TracksThereAndBack(VideoTrack, cfg.video);
  }

  lemma {:induction false} TracksKeptExactlyWhen(tracks: seq<TrackConfig>)
    ensures MapSeq(Carried, tracks) == MapSeq(WithoutOptions, tracks)
            <==> forall i :: 0 <= i < |tracks| ==> SmallBitrate(tracks[i])
  {
    MapsAgree(Carried, WithoutOptions, tracks);
    forall i | 0 <= i < |tracks|
      ensures Carried(tracks[i]) == WithoutOptions(tracks[i]) <==> SmallBitrate(tracks[i])
    {
      CarriedWhole(tracks[i]);
    }
  }

  lemma CarriedWhole(t: TrackConfig)
    ensures Carried(t) == WithoutOptions(t) <==> SmallBitrate(t)
  {
    if Carried(t) == WithoutOptions(t) {
      assert Carried(t).config.quality == t.config.quality;
    }
  }

  /** The round trip loses nothing but custom options exactly when every constant bitrate fits in 32
      bits; negative track IDs survive. */
  lemma ConfigRoundTrip(enable: bool, cfg: EncodersConfig)
    requires AllSupported(cfg)
    ensures FromMsg(ToMsg(enable, cfg).value)
            == Some((EncodersConfig(MapSeq(WithoutOptions, cfg.audio), MapSeq(WithoutOptions, cfg.video)), enable))
            <==> AllSmallBitrates(cfg)
  {
    ConfigThereAndBack(enable, cfg);
    TracksKeptExactlyWhen(cfg.audio);
    TracksKeptExactlyWhen(cfg.video);
  }

  // ---------------------------------------------------------------- the other direction

  /** A track message the conversion accepts: nothing nil, a known codec, a quality its media type
      supports. */
  predicate WellFormedTrack(media: Media, m: Option<TrackMsg>) {
    && m.Some? && m.value.encode.Some?
    && 0 <= m.value.encode.value.codec < CODECS
    && match m.value.encode.value.quality
       case Some(BitrateMsg(_)) => true
       case Some(ConstantMsg(_)) => media == VideoTrack
       case Some(UnsetQuality) => false
       case None => false
  }

  predicate WellFormed(m: ConfigMsg) {
    && (forall i :: 0 <= i < |m.audio| ==> WellFormedTrack(AudioTrack, m.audio[i]))
    && (forall i :: 0 <= i < |m.video| ==> WellFormedTrack(VideoTrack, m.video[i]))
  }

  lemma TracksConvertExactlyWhen(media: Media, tracks: seq<Option<TrackMsg>>)
    ensures TryMap((m: Option<TrackMsg>) => TrackFromMsg(media, m), tracks).Some?
            <==> forall i :: 0 <= i < |tracks| ==> WellFormedTrack(media, tracks[i])
  {
    forall i | 0 <= i < |tracks|
      ensures TrackFromMsg(media, tracks[i]).Some? <==> WellFormedTrack(media, tracks[i])
    {
      TrackConvertsExactlyWhen(media, tracks[i]);
    }
  }

  lemma TrackConvertsExactlyWhen(media: Media, m: Option<TrackMsg>)
    ensures TrackFromMsg(media, m).Some? <==> WellFormedTrack(media, m)
  {
  }

  /** What a message becomes: constant qualities modulo 256. */
  function NarrowedEncode(m: EncodeMsg): EncodeMsg {
    match m.quality
    case Some(ConstantMsg(n)) => m.(quality := Some(ConstantMsg(n % TWO_8)))
    case _ => m
  }

  function Narrowed(m: Option<TrackMsg>): Option<TrackMsg> {
    if m.Some? && m.value.encode.Some?
    then Some(m.value.(encode := Some(NarrowedEncode(m.value.encode.value))))
    else m
  }

  predicate SmallQuality(m: Option<TrackMsg>) {
    match m
    case Some(TrackMsg(_, Some(EncodeMsg(_, Some(ConstantMsg(n)))))) => n < TWO_8
    case _ => true
  }

  predicate AllSmallQualities(m: ConfigMsg) {
    && (forall i :: 0 <= i < |m.audio| ==> SmallQuality(m.audio[i]))
    && (forall i :: 0 <= i < |m.video| ==> SmallQuality(m.video[i]))
  }

  lemma EncodeBackAndThere(media: Media, m: EncodeMsg)
    requires EncodeFromMsg(media, Some(m)).Some?
    ensures EncodeToMsg(media, EncodeFromMsg(media, Some(m)).value) == Some(NarrowedEncode(m))
  {
  }

  lemma MsgTrackBackAndThere(media: Media, m: Option<TrackMsg>)
    requires TrackFromMsg(media, m).Some?
    ensures TrackToMsg(media, TrackFromMsg(media, m).value) == Some(Narrowed(m))
  {
    IDsBackAndThere(m.value.inputTrackIDs);
    EncodeBackAndThere(media, m.value.encode.value);
  }

  lemma NarrowedWhole(m: Option<TrackMsg>)
    ensures Narrowed(m) == m <==> SmallQuality(m)
  {
    if m.Some? && m.value.encode.Some? {
      var q := m.value.encode.value.quality;
      if q.Some? && q.value.ConstantMsg? {
        assert NarrowedEncode(m.value.encode.value).quality == Some(ConstantMsg(q.value.constantQuality % TWO_8));
      }
    }
  }

  lemma {:induction false} MsgTracksBackAndThere(media: Media, tracks: seq<Option<TrackMsg>>)
    ensures var from := TryMap((m: Option<TrackMsg>) => TrackFromMsg(media, m), tracks);
      from.Some? ==> TryMap((t: TrackConfig) => TrackToMsg(media, t), from.value) == Some(MapSeq(Narrowed, tracks))
  {
    if TryMap((m: Option<TrackMsg>) => TrackFromMsg(media, m), tracks).Some? {
      forall i | 0 <= i < |tracks|
        ensures TrackFromMsg(media, tracks[i]).Some?
        ensures TrackToMsg(media, TrackFromMsg(media, tracks[i]).value) == Some(Narrowed(tracks[i]))
      {
        MsgTrackBackAndThere(media, tracks[i]);
      }
      var from := TryMap((m: Option<TrackMsg>) => TrackFromMsg(media, m), tracks);
      MapsUndone((t: TrackConfig) => TrackToMsg(media, t), Narrowed, from.value, tracks);
    }
  }

  lemma {:induction false} MsgTracksKeptExactlyWhen(tracks: seq<Option<TrackMsg>>)
    ensures MapSeq(Narrowed, tracks) == tracks <==> forall i :: 0 <= i < |tracks| ==> SmallQuality(tracks[i])
  {
    var r := MapSeq(Narrowed, tracks);
    forall i | 0 <= i < |tracks| ensures r[i] == tracks[i] <==> SmallQuality(tracks[i]) {
      NarrowedWhole(tracks[i]);
    }
  }

  /** Message to configuration and back, on every message: it panics exactly on ill-formed ones, and
      otherwise is the identity, except that each constant quality becomes its value modulo 256. */
  lemma MsgRoundTrip(m: ConfigMsg)
    ensures FromMsg(m).Some? <==> WellFormed(m)
    ensures WellFormed(m) ==>
      var (cfg, enable) := FromMsg(m).value;
      && ToMsg(enable, cfg) == Some(ConfigMsg(m.enable, MapSeq(Narrowed, m.audio), MapSeq(Narrowed, m.video)))
      && (ToMsg(enable, cfg) == Some(m) <==> AllSmallQualities(m))
  {
    TracksConvertExactlyWhen(AudioTrack, m.audio);
    TracksConvertExactlyWhen(VideoTrack, m.video);
    if WellFormed(m) {
      MsgTracksBackAndThere(AudioTrack, m.audio);
      MsgTracksBackAndThere(VideoTrack, m.video);
      MsgTracksKeptExactlyWhen(m.audio);
      MsgTracksKeptExactlyWhen(m.video);
    }
  }

  // ---------------------------------------------------------------- what survives whole

  function ThereAndBack(enable: bool, cfg: EncodersConfig): Option<(EncodersConfig, bool)> {
    match ToMsg(enable, cfg)
    case None => None
    case Some(m) => FromMsg(m)
  }

  function BackAndThere(m: ConfigMsg): Option<ConfigMsg> {
    match FromMsg(m)
    case None => None
    case Some((cfg, enable)) => ToMsg(enable, cfg)
  }

  predicate NoOptions(t: TrackConfig) {
    t.config.customOptions == []
  }

  predicate NoneHasOptions(cfg: EncodersConfig) {
    && (forall i :: 0 <= i < |cfg.audio| ==> NoOptions(cfg.audio[i]))
    && (forall i :: 0 <= i < |cfg.video| ==> NoOptions(cfg.video[i]))
  }

  lemma CarriedUnchanged(t: TrackConfig)
    ensures Carried(t) == t <==> SmallBitrate(t) && NoOptions(t)
  {
    if Carried(t) == t {
      assert Carried(t).config.quality == t.config.quality;
    }
  }

  lemma {:induction false} TracksUnchangedExactlyWhen(tracks: seq<TrackConfig>)
    ensures MapSeq(Carried, tracks) == tracks
            <==> forall i :: 0 <= i < |tracks| ==> SmallBitrate(tracks[i]) && NoOptions(tracks[i])
  {
    var r := MapSeq(Carried, tracks);
    forall i | 0 <= i < |tracks| ensures r[i] == tracks[i] <==> SmallBitrate(tracks[i]) && NoOptions(tracks[i]) {
      CarriedUnchanged(tracks[i]);
    }
  }

  /** Configuration to message and back is lossless, on every configuration, exactly when the tracks are
      supported, the bitrates fit in 32 bits and no track has custom options. */
  lemma LosslessExactlyWhen(enable: bool, cfg: EncodersConfig)
    ensures ThereAndBack(enable, cfg) == Some((cfg, enable))
            <==> AllSupported(cfg) && AllSmallBitrates(cfg) && NoneHasOptions(cfg)
  {
    ConfigThereAndBack(enable, cfg);
    TracksUnchangedExactlyWhen(cfg.audio);
    TracksUnchangedExactlyWhen(cfg.video);
    if AllSupported(cfg) {
      var back := EncodersConfig(MapSeq(Carried, cfg.audio), MapSeq(Carried, cfg.video));
      assert ThereAndBack(enable, cfg) == Some((back, enable));
      assert back == cfg <==> back.audio == cfg.audio && back.video == cfg.video;
    }
  }

  /** Message to configuration and back is lossless exactly on well-formed messages whose constant
      qualities fit in 8 bits. */
  lemma MsgLosslessExactlyWhen(m: ConfigMsg)
    ensures BackAndThere(m) == Some(m) <==> WellFormed(m) && AllSmallQualities(m)
  {
    MsgRoundTrip(m);
  }

  /** Both directions lose something: a bitrate of 2^32, custom options, and a constant quality of 256. */
  lemma LostOnTheWire() returns (fast: EncodersConfig, tuned: EncodersConfig, m: ConfigMsg)
    ensures ThereAndBack(true, fast).Some? && NoneHasOptions(fast)
    ensures ThereAndBack(true, fast) != Some((fast, true))
    ensures ThereAndBack(true, tuned).Some? && AllSmallBitrates(tuned)
    ensures ThereAndBack(true, tuned) != Some((tuned, true))
    ensures BackAndThere(m).Some? && BackAndThere(m) != Some(m)
  {
    fast := EncodersConfig([TrackConfig([], EncodeConfig(1, ConstantBitrate(TWO_32), []))], []);
    assert Supported(AudioTrack, fast.audio[0]) && !SmallBitrate(fast.audio[0]);
    ConfigThereAndBack(true, fast);
    LosslessExactlyWhen(true, fast);
    tuned := EncodersConfig([TrackConfig([], EncodeConfig(1, ConstantBitrate(0), ["x"]))], []);
    assert Supported(AudioTrack, tuned.audio[0]) && !NoOptions(tuned.audio[0]);
    ConfigThereAndBack(true, tuned);
    LosslessExactlyWhen(true, tuned);
    m := LostMessage();
  }

  lemma LostMessage() returns (m: ConfigMsg)
    ensures BackAndThere(m).Some? && BackAndThere(m) != Some(m)
  {
    m := ConfigMsg(true, [], [Some(TrackMsg([], Some(EncodeMsg(0, Some(ConstantMsg(TWO_8))))))]);
    assert WellFormedTrack(VideoTrack, m.video[0]) && !SmallQuality(m.video[0]);
    MsgRoundTrip(m);
  }
}
