/** The iOS backend: `extractMetadata` turns what AVFoundation reports about an asset into the
    metadata dictionary, `getBatchMetadata` runs it over a list of paths, fail-fast, and `handle`
    validates the channel arguments and dispatches. AVFoundation is the `probe`: a function from a
    path to the `Asset` it reports. */
module IosPlugin {
  import opened Outcomes
  import opened Channel
  import opened Batch
  import opened Text
  import opened IosCodes
  import opened Schema

  /** A format code that `fourCCToString` can decode without trapping. */
  type AsciiFourCharCode = c: FourCharCode | AsciiCode(c) witness 0

  /** The first video track as AVFoundation describes it. */
  datatype VideoTrack = VideoTrack(
    displayWidth: nat,        // Int(abs(width)) of naturalSize with preferredTransform applied
    displayHeight: nat,       // Int(abs(height)) of the same
    nominalFrameRate: real,
    angle: real,              // atan2(b, a) of preferredTransform, in degrees
    formatSubTypes: seq<AsciiFourCharCode>,  // media subtype of each format description, in order
    estimatedDataRate: int)   // Int(estimatedDataRate)

  /** `mSampleRate` and `mChannelsPerFrame` of an AudioStreamBasicDescription, as `Int`s. */
  datatype BasicDescription = BasicDescription(sampleRate: int, channelsPerFrame: int)

  /** One audio format description: its media subtype and, when CoreMedia has one, its basic description. */
  datatype AudioFormat = AudioFormat(subType: AsciiFourCharCode, basic: Option<BasicDescription>)

  datatype AudioTrack = AudioTrack(formats: seq<AudioFormat>)

  /** What AVFoundation reports about the asset at one path. Each `loadTracks` either gives the
      tracks of that media type or throws an error, kept here as its `localizedDescription`. */
  datatype Asset = Asset(
    videoTracks: Result<seq<VideoTrack>, string>,
    audioTracks: Result<seq<AudioTrack>, string>,
    subtitleTracks: Result<nat, string>,  // the number of subtitle tracks
    durationMs: int,                      // Int(CMTimeGetSeconds(duration) * 1000)
    trackCount: nat,                      // asset.tracks.count
    pathExtension: string)                // URL(fileURLWithPath:).pathExtension

  /** A value of the metadata dictionary. */
  datatype Value = IntValue(i: int) | RealValue(r: real) | StrValue(s: string) | BoolValue(b: bool)

  /** The `data` dictionary of the reply, after `compactMapValues`, keyed by field (see `Schema.Name`). */
  type Data = map<Field, Value>

  const NoVideoTrackMessage: string := "No video track found"

  /** `compactMapValues { $0 }`: keeps exactly the entries whose value is not nil, unwrapped. */
  function CompactMapValues(m: map<Field, Option<Value>>): (r: Data)
    ensures forall k :: k in r <==> k in m && m[k].Some?
    ensures forall k :: k in r ==> r[k] == m[k].value
  {
    map k | k in m && m[k].Some? :: m[k].value
  }

  /** The video codec: the decoded subtype of the first format description, or "" without one. */
  function VideoCodec(track: VideoTrack): string
  {
    if track.formatSubTypes == [] then "" else FourCCToString(track.formatSubTypes[0])
  }

  /** `audioCodec`, `sampleRate` and `channels` as the optionals that `extractMetadata` fills from
      the first format description of the first audio track. */
  datatype AudioDetails = AudioDetails(codec: Option<string>, sampleRate: Option<int>, channels: Option<int>)

  /** The optional audio fields: the sample rate and the channel count come together, only with a
      codec, and only when there is an audio track with a format description. */
  function AudioDetailsOf(tracks: seq<AudioTrack>): (d: AudioDetails)
    ensures d.sampleRate.Some? <==> d.channels.Some?
    ensures d.sampleRate.Some? ==> d.codec.Some?
    ensures d.codec.Some? <==> tracks != [] && tracks[0].formats != []
    ensures d.sampleRate.Some? <==> tracks != [] && tracks[0].formats != [] && tracks[0].formats[0].basic.Some?
    ensures d.codec.Some? ==> d.codec.value == FourCCToString(tracks[0].formats[0].subType)
    ensures d.sampleRate.Some? ==> d.sampleRate.value == tracks[0].formats[0].basic.value.sampleRate
    ensures d.channels.Some? ==> d.channels.value == tracks[0].formats[0].basic.value.channelsPerFrame
  {
    if tracks == [] || tracks[0].formats == [] then AudioDetails(None, None, None)
    else
      var f := tracks[0].formats[0];
      match f.basic
      case None => AudioDetails(Some(FourCCToString(f.subType)), None, None)
      case Some(b) => AudioDetails(Some(FourCCToString(f.subType)), Some(b.sampleRate), Some(b.channelsPerFrame))
  }

  function IntOrNil(x: Option<int>): Option<Value>
  {
    match x case None => None case Some(i) => Some(IntValue(i))
  }

  function StrOrNil(x: Option<string>): Option<Value>
  {
    match x case None => None case Some(s) => Some(StrValue(s))
  }

  /** One entry of the `[String: Any?]` dictionary literal of `extractMetadata`. */
  function Entry(f: Field, width: int, height: int, duration: int, codec: string, bitrate: int, fps: real,
                 rotation: int, container: string, audio: AudioDetails, hasAudio: bool,
                 hasSubtitles: bool, streamCount: int): (r: Option<Value>)
    ensures f in Required ==> r.Some?
    ensures f == AudioCodec ==> (r.Some? <==> audio.codec.Some?)
    ensures f == SampleRate ==> (r.Some? <==> audio.sampleRate.Some?)
    ensures f == Channels ==> (r.Some? <==> audio.channels.Some?)
  {
    match f
    case Width => Some(IntValue(width))
    case Height => Some(IntValue(height))
    case Duration => Some(IntValue(duration))
    case Codec => Some(StrValue(codec))
    case Bitrate => Some(IntValue(bitrate))
    case Fps => Some(RealValue(fps))
    case Rotation => Some(IntValue(rotation))
    case Container => Some(StrValue(container))
    case AudioCodec => StrOrNil(audio.codec)
    case SampleRate => IntOrNil(audio.sampleRate)
    case Channels => IntOrNil(audio.channels)
    case HasAudio => Some(BoolValue(hasAudio))
    case HasSubtitles => Some(BoolValue(hasSubtitles))
    case StreamCount => Some(IntValue(streamCount))
  }

  /** The `[String: Any?]` dictionary literal of `extractMetadata`, before nils are dropped: one
      entry per field. */
  function Dictionary(width: int, height: int, duration: int, codec: string, bitrate: int, fps: real,
                      rotation: int, container: string, audio: AudioDetails, hasAudio: bool,
                      hasSubtitles: bool, streamCount: int): (m: map<Field, Option<Value>>)
    ensures forall f :: f in Required ==> f in m && m[f].Some?
    ensures forall f :: f in Audio ==> f in m
    ensures m[AudioCodec].Some? <==> audio.codec.Some?
    ensures m[SampleRate].Some? <==> audio.sampleRate.Some?
    ensures m[Channels].Some? <==> audio.channels.Some?
    ensures m[HasAudio] == Some(BoolValue(hasAudio))
    ensures m[Rotation] == Some(IntValue(rotation))
    ensures m[Container] == Some(StrValue(container))
  {
    map f | f in Required + Audio ::
      Entry(f, width, height, duration, codec, bitrate, fps, rotation, container, audio, hasAudio,
            hasSubtitles, streamCount)
  }

  /** What `extractMetadata` returns for an asset: the `data` dictionary, or the description of
      the error it throws. The contract states when it fails and which error it reports: the
      tracks are loaded video first, then audio, then subtitles, and the first load that throws
      gives the error. */
  function Metadata(asset: Asset): (r: Result<Data, string>)
    ensures r.Ok? <==> asset.videoTracks.Ok? && asset.videoTracks.value != []
                       && asset.audioTracks.Ok? && asset.subtitleTracks.Ok?
    ensures asset.videoTracks == Ok([]) ==> r == Err(NoVideoTrackMessage)
    ensures asset.videoTracks.Err? ==> r == Err(asset.videoTracks.error)
    ensures asset.videoTracks.Ok? && asset.videoTracks.value != [] && asset.audioTracks.Err?
            ==> r == Err(asset.audioTracks.error)
    ensures asset.videoTracks.Ok? && asset.videoTracks.value != [] && asset.audioTracks.Ok?
            && asset.subtitleTracks.Err?
            ==> r == Err(asset.subtitleTracks.error)
  {
    match asset.videoTracks
    case Err(e) => Err(e)
    case Ok(videoTracks) =>
      if videoTracks == [] then Err(NoVideoTrackMessage)
      else match asset.audioTracks
      case Err(e) => Err(e)
      case Ok(audioTracks) =>
        match asset.subtitleTracks
        case Err(e) => Err(e)
        case Ok(subtitles) => Ok(Assemble(videoTracks[0], audioTracks, subtitles, asset))
  }

  /** The dictionary of a successful extraction, from the first video track, the audio tracks and
      the number of subtitle tracks. */
  function Assemble(v: VideoTrack, audioTracks: seq<AudioTrack>, subtitles: nat, asset: Asset): Data
  {
    CompactMapValues(Dictionary(v.displayWidth, v.displayHeight, asset.durationMs, VideoCodec(v),
      v.estimatedDataRate, v.nominalFrameRate, RotationFromAngle(v.angle), Lower(asset.pathExtension),
      AudioDetailsOf(audioTracks), audioTracks != [], subtitles > 0, asset.trackCount))
  }

  /** The presence rules of a successful extraction: every required field is there; `sampleRate`
      and `channels` are there together and only with `audioCodec`; `hasAudio` says whether there
      is an audio track, and without one no audio field is there; the rotation is a quadrant and
      the container the lower-cased extension. */
  lemma PresenceRules(asset: Asset)
    requires Metadata(asset).Ok?
    ensures var d := Metadata(asset).value;
            && (forall f :: f in Required ==> f in d)
            && (SampleRate in d <==> Channels in d)
            && (SampleRate in d ==> AudioCodec in d)
            && d[HasAudio] == BoolValue(asset.audioTracks.value != [])
            && (asset.audioTracks.value == [] ==> forall f :: f in Audio ==> f !in d)
            && d[Rotation] in {IntValue(0), IntValue(90), IntValue(180), IntValue(270)}
            && d[Container] == StrValue(Lower(asset.pathExtension))
  {
    var v := asset.videoTracks.value[0];
    var audio := AudioDetailsOf(asset.audioTracks.value);
    var m := Dictionary(v.displayWidth, v.displayHeight, asset.durationMs, VideoCodec(v),
      v.estimatedDataRate, v.nominalFrameRate, RotationFromAngle(v.angle), Lower(asset.pathExtension),
      audio, asset.audioTracks.value != [], asset.subtitleTracks.value > 0, asset.trackCount);
    assert Metadata(asset).value == CompactMapValues(m);
  }

  /** After `compactMapValues`, every non-audio field of the dictionary literal holds the value it
      was built from, and each audio field, when present, the value of its optional. */
  lemma DictionaryValues(width: int, height: int, duration: int, codec: string, bitrate: int, fps: real,
                         rotation: int, container: string, audio: AudioDetails, hasAudio: bool,
                         hasSubtitles: bool, streamCount: int)
    ensures var d := CompactMapValues(Dictionary(width, height, duration, codec, bitrate, fps, rotation,
                                                 container, audio, hasAudio, hasSubtitles, streamCount));
            && d[Width] == IntValue(width) && d[Height] == IntValue(height)
            && d[Duration] == IntValue(duration) && d[Bitrate] == IntValue(bitrate)
            && d[Fps] == RealValue(fps) && d[Codec] == StrValue(codec)
            && d[HasSubtitles] == BoolValue(hasSubtitles) && d[StreamCount] == IntValue(streamCount)
            && d[Rotation] == IntValue(rotation)
            && (AudioCodec in d ==> d[AudioCodec] == StrValue(audio.codec.value))
            && (SampleRate in d ==> d[SampleRate] == IntValue(audio.sampleRate.value))
            && (Channels in d ==> d[Channels] == IntValue(audio.channels.value))
  {
  }

  /** The values of a successful extraction: size, duration, bitrate, frame rate and stream count
      as reported; the codec decoded from the first format description of the first video track,
      or "" without one; `hasSubtitles` whether there is a subtitle track; the rotation snapped
      from the angle of the first video track's transform. */
  lemma RecordValues(asset: Asset)
    requires Metadata(asset).Ok?
    ensures var d := Metadata(asset).value;
            var v := asset.videoTracks.value[0];
            && d[Width] == IntValue(v.displayWidth) && d[Height] == IntValue(v.displayHeight)
            && d[Duration] == IntValue(asset.durationMs) && d[Bitrate] == IntValue(v.estimatedDataRate)
            && d[Fps] == RealValue(v.nominalFrameRate)
            && d[Codec] == StrValue(if v.formatSubTypes == [] then "" else FourCCToString(v.formatSubTypes[0]))
            && d[HasSubtitles] == BoolValue(asset.subtitleTracks.value > 0)
            && d[StreamCount] == IntValue(asset.trackCount)
            && d[Rotation] == IntValue(RotationFromAngle(v.angle))
  {
    var v := asset.videoTracks.value[0];
    DictionaryValues(v.displayWidth, v.displayHeight, asset.durationMs, VideoCodec(v),
      v.estimatedDataRate, v.nominalFrameRate, RotationFromAngle(v.angle), Lower(asset.pathExtension),
      AudioDetailsOf(asset.audioTracks.value), asset.audioTracks.value != [], asset.subtitleTracks.value > 0,
      asset.trackCount);
  }

  /** The audio values of a successful extraction, when present: the decoded subtype, the sample
      rate and the channel count of the first format description of the first audio track. */
  lemma AudioValues(asset: Asset)
    requires Metadata(asset).Ok?
    ensures var d := Metadata(asset).value;
            var a := asset.audioTracks.value;
            && (AudioCodec in d ==> d[AudioCodec] == StrValue(FourCCToString(a[0].formats[0].subType)))
            && (SampleRate in d ==> d[SampleRate] == IntValue(a[0].formats[0].basic.value.sampleRate))
            && (Channels in d ==> d[Channels] == IntValue(a[0].formats[0].basic.value.channelsPerFrame))
  {
    var v := asset.videoTracks.value[0];
    DictionaryValues(v.displayWidth, v.displayHeight, asset.durationMs, VideoCodec(v),
      v.estimatedDataRate, v.nominalFrameRate, RotationFromAngle(v.angle), Lower(asset.pathExtension),
      AudioDetailsOf(asset.audioTracks.value), asset.audioTracks.value != [], asset.subtitleTracks.value > 0,
      asset.trackCount);
  }

  /** An audio track is reported by `hasAudio` even when it has no format description, and then
      none of the three audio fields is present. */
  lemma AudioWithoutFormat(asset: Asset)
    requires Metadata(asset).Ok?
    requires asset.audioTracks.value != [] && asset.audioTracks.value[0].formats == []
    ensures Metadata(asset).value[HasAudio] == BoolValue(true)
    ensures forall f :: f in Audio ==> f !in Metadata(asset).value
  {
    PresenceRules(asset);
  }

  /** `extractMetadata`, step by step: load the video tracks, take the first, read its size,
      rotation and codec, load the audio tracks and fill the optional audio fields, load the
      subtitle tracks, then build the dictionary and drop its nil values. */
  method ExtractMetadata(asset: Asset) returns (r: Result<Data, string>)
    ensures r == Metadata(asset)
  {
    if asset.videoTracks.Err? {
      return Err(asset.videoTracks.error);
    }
    var tracks := asset.videoTracks.value;
    if tracks == [] {
      return Err(NoVideoTrackMessage);
    }
    var videoTrack := tracks[0];
    var width := videoTrack.displayWidth;
    var height := videoTrack.displayHeight;
    var fps := videoTrack.nominalFrameRate;
    var durationMs := asset.durationMs;
    var rotation := RotationFromAngle(videoTrack.angle);
    var codec := "";
    if videoTrack.formatSubTypes != [] {
      codec := FourCCToString(videoTrack.formatSubTypes[0]);
    }
    var bitrate := videoTrack.estimatedDataRate;

    if asset.audioTracks.Err? {
      return Err(asset.audioTracks.error);
    }
    var audioTracks := asset.audioTracks.value;
    var hasAudio := audioTracks != [];
    var audioCodec: Option<string> := None;
    var sampleRate: Option<int> := None;
    var channels: Option<int> := None;
    if audioTracks != [] {
      var audioTrack := audioTracks[0];
      if audioTrack.formats != [] {
        var format := audioTrack.formats[0];
        audioCodec := Some(FourCCToString(format.subType));
        if format.basic.Some? {
          sampleRate := Some(format.basic.value.sampleRate);
          channels := Some(format.basic.value.channelsPerFrame);
        }
      }
    }

    if asset.subtitleTracks.Err? {
      return Err(asset.subtitleTracks.error);
    }
    var hasSubtitles := asset.subtitleTracks.value > 0;
    var container := Lower(asset.pathExtension);
    var streamCount := asset.trackCount;

    assert codec == VideoCodec(videoTrack);
    assert AudioDetails(audioCodec, sampleRate, channels) == AudioDetailsOf(audioTracks);
    var data := Dictionary(width, height, durationMs, codec, bitrate, fps, rotation, container,
      AudioDetails(audioCodec, sampleRate, channels), hasAudio, hasSubtitles, streamCount);
    r := Ok(CompactMapValues(data));
  }

  /** Extraction of one path, as the batch sees it. */
  function Extractor(probe: string -> Asset): string -> Result<Data, string>
  {
    path => Metadata(probe(path))
  }

  /** `getBatchMetadata`: extracts the paths in order with the batch loop and stops at the first
      error, which is all that is reported; `probed` counts the paths handed to extraction. */
  method GetBatchMetadata(paths: seq<string>, probe: string -> Asset)
    returns (r: Result<seq<Data>, string>, ghost probed: nat)
    ensures r == FailFast(paths, Extractor(probe))
    ensures r.Ok? ==> probed == |paths| && |r.value| == |paths|
    ensures r.Err? ==> FirstFailure(paths, Extractor(probe), probed - 1)
    ensures r.Err? ==> r.error == Metadata(probe(paths[probed - 1])).error
  {
    r, probed := Run(paths, Extractor(probe));
  }

  /** The success value of a reply: one dictionary for `getInfo`, a list for `getBatch`. */
  datatype Payload = Record(data: Data) | Records(items: seq<Data>)

  /** `call.arguments as? [String: Any]`: a map whose keys are all strings. */
  predicate StringKeyed(args: Encodable)
  {
    args.Map? && forall k :: k in args.entries ==> k.Str?
  }

  /** `args["path"] as? String`. */
  function PathArgument(args: Encodable): (r: Option<string>)
    ensures r.Some? <==> StringKeyed(args) && Str("path") in args.entries && args.entries[Str("path")].Str?
  {
    if StringKeyed(args) && Str("path") in args.entries && args.entries[Str("path")].Str?
    then Some(args.entries[Str("path")].s) else None
  }

  /** `args["paths"] as? [String]`: present only when the value is a list of strings. */
  function PathsArgument(args: Encodable): (r: Option<seq<string>>)
    ensures r.Some? <==> StringKeyed(args) && Str("paths") in args.entries
                         && args.entries[Str("paths")].List? && AllStrings(args.entries[Str("paths")].items)
    ensures r.Some? ==> var items := args.entries[Str("paths")].items;
                        |r.value| == |items| && forall i :: 0 <= i < |items| ==> items[i] == Str(r.value[i])
  {
    if StringKeyed(args) && Str("paths") in args.entries
       && args.entries[Str("paths")].List? && AllStrings(args.entries[Str("paths")].items)
    then Some(Strings(args.entries[Str("paths")].items)) else None
  }

  /** `handle(_:result:)`: validates the arguments, then extracts one path or a batch. */
  method Handle(call: MethodCall, probe: string -> Asset) returns (reply: Reply<Payload>)
    ensures call.name != "getInfo" && call.name != "getBatch" ==> reply == NotImplemented
    ensures call.name == "getInfo" && PathArgument(call.arguments).None? ==>
              reply == Error(InvalidArgument, Some("Path is required"))
    ensures call.name == "getBatch" && PathsArgument(call.arguments).None? ==>
              reply == Error(InvalidArgument, Some("Paths list is required"))
    ensures call.name == "getInfo" && PathArgument(call.arguments).Some? ==>
              var m := Metadata(probe(PathArgument(call.arguments).value));
              reply == if m.Ok? then Success(Record(m.value)) else Error(MetadataError, Some(m.error))
    ensures call.name == "getBatch" && PathsArgument(call.arguments).Some? ==>
              var b := FailFast(PathsArgument(call.arguments).value, Extractor(probe));
              reply == if b.Ok? then Success(Records(b.value)) else Error(MetadataError, Some(b.error))
  {
    if call.name == "getInfo" {
      var path := PathArgument(call.arguments);
      if path.None? {
        return Error(InvalidArgument, Some("Path is required"));
      }
      var m := ExtractMetadata(probe(path.value));
      reply := if m.Ok? then Success(Record(m.value)) else Error(MetadataError, Some(m.error));
    } else if call.name == "getBatch" {
      var paths := PathsArgument(call.arguments);
      if paths.None? {
        return Error(InvalidArgument, Some("Paths list is required"));
      }
      var b, _ := GetBatchMetadata(paths.value, probe);
      reply := if b.Ok? then Success(Records(b.value)) else Error(MetadataError, Some(b.error));
    } else {
      reply := NotImplemented;
    }
  }

  /** An empty list of paths is accepted and gives an empty list. */
  lemma EmptyBatch(probe: string -> Asset)
    ensures FailFast([], Extractor(probe)) == Ok([])
  {
  }
}
