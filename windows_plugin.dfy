/** The Windows backend: `ExtractVideoMetadata` reads a file through a Media Foundation source
    reader and writes the metadata as JSON text by hand; `HandleMethodCall` validates the channel
    arguments and answers with that text, for one path or for every string in a list. Media
    Foundation is the `probe`: a function from a path to the `Source` it reports. */
module WindowsPlugin {
  import opened Outcomes
  import opened Channel
  import opened Text
  import opened Json
  import opened Schema

  /** A `UINT32`. */
  type UInt32 = n: nat | n < 0x1_0000_0000

  /** The media subtype GUIDs the codec tables name; any other GUID is `OtherGuid`. */
  datatype Guid =
    | H264 | H265 | VP80 | VP90 | WMV3 | MPEG2      // MFVideoFormat_*
    | AAC | MP3 | WMAudioV8 | PCM                   // MFAudioFormat_*
    | OtherGuid(id: nat)

  /** The attributes of an `IMFMediaType` that the extraction reads; an attribute the type does not
      carry reads as the 0 its variable starts with. */
  datatype MediaType = MediaType(
    frameWidth: UInt32,        // MF_MT_FRAME_SIZE
    frameHeight: UInt32,
    fpsText: string,           // what `operator<<` writes for numerator / denominator of MF_MT_FRAME_RATE
    avgBitrate: UInt32,        // MF_MT_AVG_BITRATE
    subtype: Option<Guid>,     // MF_MT_SUBTYPE, None when GetGUID fails
    samplesPerSecond: UInt32,  // MF_MT_AUDIO_SAMPLES_PER_SECOND
    numChannels: UInt32)       // MF_MT_AUDIO_NUM_CHANNELS

  /** An open source reader: the current type of the first video and first audio stream (None when
      the call fails or gives no type), the MF_PD_DURATION attribute in 100 ns units, and the
      current type at stream indices 0, 1, 2, ...: at an index past the end the call fails, and an
      entry None is a call that succeeds without a type. */
  datatype Reader = Reader(
    firstVideo: Option<MediaType>,
    duration100ns: Option<int>,
    firstAudio: Option<MediaType>,
    streams: seq<Option<MediaType>>)

  /** What Media Foundation does for one path: whether `MFStartup` succeeds, the reader when
      `MFCreateSourceReaderFromURL` succeeds, and what `PathFindExtensionW` returns (the text from
      the extension's '.' on, or "" when there is none). */
  datatype Source = Source(startupOk: bool, reader: Option<Reader>, extension: string)

  const StartupMessage: string := "Failed to initialize Media Foundation"
  const OpenMessage: string := "Failed to open video file"

  // ---------------------------------------------------------------- conversions

  /** `int x = u;` for a `UINT32 u`: values above INT_MAX wrap to negative numbers. */
  function ToInt(u: UInt32): (n: int)
    ensures -0x8000_0000 <= n < 0x8000_0000
    ensures (n - u) % 0x1_0000_0000 == 0
    ensures u < 0x8000_0000 ==> n == u
  {
    if u < 0x8000_0000 then u else u - 0x1_0000_0000
  }

  /** C++ integer division of a 100 ns count by 10000: the quotient truncated toward zero. */
  function DurationMs(duration100ns: int): (ms: int)
    ensures 0 <= duration100ns ==> 0 <= ms && ms * 10000 <= duration100ns < (ms + 1) * 10000
    ensures duration100ns < 0 ==> ms <= 0 && (ms - 1) * 10000 < duration100ns <= ms * 10000
  {
    if duration100ns >= 0 then duration100ns / 10000 else -((-duration100ns) / 10000)
  }

  /** `GetFileExtension`: the text after the '.' that `PathFindExtensionW` points at, not
      lower-cased, or "" when it points at the end of the path. */
  function FileExtension(ext: string): (r: string)
    ensures ext != [] && ext[0] == '.' ==> ['.'] + r == ext
    ensures (ext == [] || ext[0] != '.') ==> r == ""
  {
    if ext != [] && ext[0] == '.' then ext[1..] else ""
  }

  /** The video codec table: six named subtypes, "unknown" for any other, "" when there is no subtype. */
  function VideoCodecName(subtype: Option<Guid>): (name: string)
    ensures name == "" <==> subtype.None?
  {
    match subtype
    case None => ""
    case Some(H264) => "h264"
    case Some(H265) => "hevc"
    case Some(VP80) => "vp8"
    case Some(VP90) => "vp9"
    case Some(WMV3) => "wmv3"
    case Some(MPEG2) => "mpeg2"
    case Some(_) => "unknown"
  }

  /** The audio codec table: four named subtypes, "unknown" for any other, "" when there is no subtype. */
  function AudioCodecName(subtype: Option<Guid>): (name: string)
    ensures name == "" <==> subtype.None?
  {
    match subtype
    case None => ""
    case Some(AAC) => "aac"
    case Some(MP3) => "mp3"
    case Some(WMAudioV8) => "wma"
    case Some(PCM) => "pcm"
    case Some(_) => "unknown"
  }

  predicate KnownVideo(g: Guid) { g in {H264, H265, VP80, VP90, WMV3, MPEG2} }
  predicate KnownAudio(g: Guid) { g in {AAC, MP3, WMAudioV8, PCM} }

  /** The tables tell the named subtypes apart and give "unknown" to exactly the others. */
  lemma CodecTables(g: Guid, h: Guid)
    ensures VideoCodecName(Some(g)) == "unknown" <==> !KnownVideo(g)
    ensures AudioCodecName(Some(g)) == "unknown" <==> !KnownAudio(g)
    ensures KnownVideo(g) && KnownVideo(h) && g != h ==> VideoCodecName(Some(g)) != VideoCodecName(Some(h))
    ensures KnownAudio(g) && KnownAudio(h) && g != h ==> AudioCodecName(Some(g)) != AudioCodecName(Some(h))
  {
  }

  /** The codec names are all written between quotes as they are. */
  lemma CodecNamesPlain(subtype: Option<Guid>)
    ensures Plain(VideoCodecName(subtype)) && Plain(AudioCodecName(subtype))
  {
  }

  /** The number of entries that are types. */
  function CountPresent(streams: seq<Option<MediaType>>): (n: nat)
    ensures n <= |streams|
  {
    if streams == [] then 0
    else CountPresent(streams[..|streams| - 1]) + (if streams[|streams| - 1].Some? then 1 else 0)
  }

  // ---------------------------------------------------------------- the extraction

  /** The values `ExtractVideoMetadata` writes into a successful answer. */
  datatype Metadata = Metadata(
    width: int, height: int, durationMs: int, codec: string, bitrate: int, fps: string,
    container: string, hasAudio: bool, audioCodec: string, sampleRate: int, channels: int,
    streamCount: int)

  /** How `ExtractVideoMetadata` ends: one of the two early failures, or the metadata. */
  datatype Outcome = StartupFailed | OpenFailed | Extracted(meta: Metadata)

  /** What `ExtractVideoMetadata` finds for a source. A missing video or audio type, a missing
      duration or a missing extension is not a failure: the value keeps its initial 0, "" or false. */
  function Analyze(src: Source): (o: Outcome)
    ensures o == StartupFailed <==> !src.startupOk
    ensures o == OpenFailed <==> src.startupOk && src.reader.None?
    ensures o.Extracted? ==> o.meta.hasAudio == src.reader.value.firstAudio.Some?
                             && o.meta.container == FileExtension(src.extension)
  {
    if !src.startupOk then StartupFailed
    else if src.reader.None? then OpenFailed
    else
      var r := src.reader.value;
      var video := r.firstVideo;
      var audio := r.firstAudio;
      Extracted(Metadata(
        if video.Some? then ToInt(video.value.frameWidth) else 0,
        if video.Some? then ToInt(video.value.frameHeight) else 0,
        if r.duration100ns.Some? then DurationMs(r.duration100ns.value) else 0,
        if video.Some? then VideoCodecName(video.value.subtype) else "",
        if video.Some? then ToInt(video.value.avgBitrate) else 0,
        if video.Some? then video.value.fpsText else "0",
        FileExtension(src.extension),
        audio.Some?,
        if audio.Some? then AudioCodecName(audio.value.subtype) else "",
        if audio.Some? then ToInt(audio.value.samplesPerSecond) else 0,
        if audio.Some? then ToInt(audio.value.numChannels) else 0,
        CountPresent(r.streams)))
  }

  /** The values of an extraction: size, bitrate, codec and frame rate from the first video type,
      or 0, 0, 0, "" and "0" without one; the audio codec, sample rate and channel count from the
      first audio type, or "", 0 and 0 without one; and the number of stream indices that have a
      type. */
  lemma ExtractedValues(src: Source)
    requires Analyze(src).Extracted?
    ensures var r, m := src.reader.value, Analyze(src).meta;
            var video, audio := r.firstVideo, r.firstAudio;
            && m.width == (if video.Some? then ToInt(video.value.frameWidth) else 0)
            && m.height == (if video.Some? then ToInt(video.value.frameHeight) else 0)
            && m.bitrate == (if video.Some? then ToInt(video.value.avgBitrate) else 0)
            && m.codec == (if video.Some? then VideoCodecName(video.value.subtype) else "")
            && m.fps == (if video.Some? then video.value.fpsText else "0")
            && m.audioCodec == (if audio.Some? then AudioCodecName(audio.value.subtype) else "")
            && m.sampleRate == (if audio.Some? then ToInt(audio.value.samplesPerSecond) else 0)
            && m.channels == (if audio.Some? then ToInt(audio.value.numChannels) else 0)
            && m.streamCount == CountPresent(r.streams)
  {
  }

  /** The members of the `data` object, in the order they are written: the audio members only
      with audio, `rotation` always 0 and `hasSubtitles` always false. */
  function DataMembers(m: Metadata): seq<Member>
  {
    Front(m) + (if m.hasAudio then AudioMembers(m) else []) + Back(m)
  }

  function Front(m: Metadata): seq<Member>
  {
    [Member(Name(Width), JInt(m.width)), Member(Name(Height), JInt(m.height)),
     Member(Name(Duration), JInt(m.durationMs)), Member(Name(Codec), JString(m.codec)),
     Member(Name(Bitrate), JInt(m.bitrate)), Member(Name(Fps), JNumber(m.fps)),
     Member(Name(Rotation), JInt(0)), Member(Name(Container), JString(m.container))]
  }

  function AudioMembers(m: Metadata): seq<Member>
  {
    [Member(Name(AudioCodec), JString(m.audioCodec)), Member(Name(SampleRate), JInt(m.sampleRate)),
     Member(Name(Channels), JInt(m.channels))]
  }

  function Back(m: Metadata): seq<Member>
  {
    [Member(Name(HasAudio), JBool(m.hasAudio)), Member(Name(HasSubtitles), JBool(false)),
     Member(Name(StreamCount), JInt(m.streamCount))]
  }

  /** The JSON value an answer writes: `{"success":false,"error":...}` or `{"success":true,"data":{...}}`. */
  function Document(o: Outcome): (doc: Json)
    ensures doc.JObject? && |doc.members| == 2
    ensures doc.members[0] == Member("success", JBool(o.Extracted?))
    ensures doc.members[1].key == (if o.Extracted? then "data" else "error")
    ensures o == StartupFailed ==> doc.members[1].value == JString(StartupMessage)
    ensures o == OpenFailed ==> doc.members[1].value == JString(OpenMessage)
    ensures o.Extracted? ==> doc.members[1].value == JObject(DataMembers(o.meta))
  {
    match o
    case StartupFailed => JObject([Member("success", JBool(false)), Member("error", JString(StartupMessage))])
    case OpenFailed => JObject([Member("success", JBool(false)), Member("error", JString(OpenMessage))])
    case Extracted(m) => JObject([Member("success", JBool(true)), Member("data", JObject(DataMembers(m)))])
  }

  /** The text `ExtractVideoMetadata` returns: the document written with string contents copied
      as they are. */
  function InfoText(src: Source): string
  {
    Write(Document(Analyze(src)), false)
  }

  /** The fields of the `data` object before the audio fields, the audio fields, and the fields after them. */
  const FrontFields: seq<Field> := [Width, Height, Duration, Codec, Bitrate, Fps, Rotation, Container]
  const AudioFields: seq<Field> := [AudioCodec, SampleRate, Channels]
  const BackFields: seq<Field> := [HasAudio, HasSubtitles, StreamCount]

  /** The keys of the `data` object, in order: the audio keys sit between `container` and
      `hasAudio`, exactly when there is audio. */
  lemma DataKeys(m: Metadata)
    ensures Keys(DataMembers(m)) ==
              Names(FrontFields + (if m.hasAudio then AudioFields else []) + BackFields)
  {
    var a := if m.hasAudio then AudioMembers(m) else [];
    var fa := if m.hasAudio then AudioFields else [];
    PartKeys(m);
    assert Keys(a) == Names(fa);
    KeysConcat(Front(m), a);
    KeysConcat(Front(m) + a, Back(m));
    NamesConcat(FrontFields, fa);
    NamesConcat(FrontFields + fa, BackFields);
  }

  lemma PartKeys(m: Metadata)
    ensures Keys(Front(m)) == Names(FrontFields)
    ensures Keys(AudioMembers(m)) == Names(AudioFields)
    ensures Keys(Back(m)) == Names(BackFields)
  {
  }

  /** `rotation` is always 0 and `hasSubtitles` always false. */
  lemma FixedValues(m: Metadata)
    ensures Member(Name(Rotation), JInt(0)) in DataMembers(m)
    ensures Member(Name(HasSubtitles), JBool(false)) in DataMembers(m)
  {
    var a := if m.hasAudio then AudioMembers(m) else [];
    assert DataMembers(m)[6] == Member(Name(Rotation), JInt(0));
    assert DataMembers(m)[|Front(m) + a| + 1] == Member(Name(HasSubtitles), JBool(false));
  }

  /** A file without a video stream is still a success: width and height 0 and codec "". */
  lemma NoVideoIsNotAnError(src: Source)
    requires src.startupOk && src.reader.Some? && src.reader.value.firstVideo.None?
    ensures Analyze(src).Extracted?
    ensures var m := Analyze(src).meta; m.width == 0 && m.height == 0 && m.codec == "" && m.fps == "0"
  {
  }

  /** The audio values are "" and 0 without an audio type, and the codec is "" only when the
      audio type has no subtype. */
  lemma AudioDefaults(src: Source)
    requires Analyze(src).Extracted?
    ensures var m := Analyze(src).meta;
            && (!m.hasAudio ==> m.audioCodec == "" && m.sampleRate == 0 && m.channels == 0)
            && (m.hasAudio ==> (m.audioCodec == "" <==> src.reader.value.firstAudio.value.subtype.None?))
  {
  }

  /** The duration is the converted MF_PD_DURATION attribute, and 0 when it cannot be read. */
  lemma DurationRule(src: Source)
    requires Analyze(src).Extracted?
    ensures var d := src.reader.value.duration100ns;
            && (d.None? ==> Analyze(src).meta.durationMs == 0)
            && (d.Some? && d.value >= 0 ==> Analyze(src).meta.durationMs == d.value / 10000)
            && (d.Some? ==> Analyze(src).meta.durationMs == DurationMs(d.value))
  {
  }

  /** Every key is written between quotes as it is. */
  lemma NamePlain(f: Field)
    ensures Plain(Name(f))
  {
    var n := Name(f);
    forall i | 0 <= i < |n| ensures !NeedsEscape(n[i]) {
      assert 'a' <= n[i] <= 'z' || 'A' <= n[i] <= 'Z';
    }
  }

  /** The data object can be written verbatim exactly when the container can: the codec names
      come from the tables and need no escaping. */
  lemma DataPlainIff(m: Metadata)
    requires Plain(m.codec) && Plain(m.audioCodec)
    ensures PlainMembers(DataMembers(m)) <==> Plain(m.container)
  {
    var a := if m.hasAudio then AudioMembers(m) else [];
    PlainMembersConcat(Front(m) + a, Back(m));
    PlainMembersConcat(Front(m), a);
    PlainMembersAll(Back(m));
    PlainMembersAll(a);
    PlainMembersAll(Front(m));
    NamePlain(Width); NamePlain(Height); NamePlain(Duration); NamePlain(Codec); NamePlain(Bitrate);
    NamePlain(Fps); NamePlain(Rotation); NamePlain(Container); NamePlain(AudioCodec);
    NamePlain(SampleRate); NamePlain(Channels); NamePlain(HasAudio); NamePlain(HasSubtitles);
    NamePlain(StreamCount);
    assert Front(m)[7] == Member(Name(Container), JString(m.container));
  }

  /** The keys of the envelope and the failure messages are written between quotes as they are. */
  lemma EnvelopePlain(s: string)
    requires s in {StartupMessage, OpenMessage, "success", "data", "error"}
    ensures Plain(s)
  {
    forall i | 0 <= i < |s| ensures !NeedsEscape(s[i]) {
      assert s[i] == ' ' || 'a' <= s[i] <= 'z' || 'A' <= s[i] <= 'Z';
    }
  }

  /** The text is the RFC 8259 text of the document exactly when the container needs no escaping;
      the early failures are always valid JSON. */
  lemma InfoTextIsJsonIff(src: Source)
    ensures InfoText(src) == Serialize(Document(Analyze(src))) <==>
              (Analyze(src).Extracted? ==> Plain(Analyze(src).meta.container))
  {
    var o := Analyze(src);
    VerbatimIsJsonIff(Document(o));
    EnvelopePlain("success");
    EnvelopePlain("data");
    EnvelopePlain("error");
    EnvelopePlain(StartupMessage);
    EnvelopePlain(OpenMessage);
    PlainMembersAll(Document(o).members);
    if o.Extracted? {
      var m := o.meta;
      var r := src.reader.value;
      CodecNamesPlain(if r.firstVideo.Some? then r.firstVideo.value.subtype else None);
      CodecNamesPlain(if r.firstAudio.Some? then r.firstAudio.value.subtype else None);
      DataPlainIff(m);
    }
  }

  /** A '"' in the extension (a URL whose query follows the last '.') makes the text differ from
      the RFC 8259 text of the document. */
  lemma QuoteInExtension(src: Source)
    requires src.startupOk && src.reader.Some?
    requires src.extension == ".mp4?q=\""
    ensures InfoText(src) != Serialize(Document(Analyze(src)))
  {
    InfoTextIsJsonIff(src);
    var c := Analyze(src).meta.container;
    assert c == src.extension[1..];
    assert c[6] == '"';
  }

  /** The only number of the document not written from an integer is `fps`: the document follows
      the grammar of RFC 8259 exactly when the stream writes the frame rate as a number token. */
  lemma DocumentWellFormed(src: Source)
    ensures WellFormed(Document(Analyze(src))) <==>
              (Analyze(src).Extracted? ==> NumberToken(Analyze(src).meta.fps))
  {
    var o := Analyze(src);
    WellFormedMembersAll(Document(o).members);
    if o.Extracted? {
      DataWellFormed(o.meta);
    }
  }

  lemma DataWellFormed(m: Metadata)
    ensures WellFormedMembers(DataMembers(m)) <==> NumberToken(m.fps)
  {
    var a := if m.hasAudio then AudioMembers(m) else [];
    WellFormedMembersConcat(Front(m) + a, Back(m));
    WellFormedMembersConcat(Front(m), a);
    PartsWellFormed(m);
  }

  lemma PartsWellFormed(m: Metadata)
    ensures WellFormedMembers(Front(m)) <==> NumberToken(m.fps)
    ensures WellFormedMembers(AudioMembers(m)) && WellFormedMembers(Back(m))
  {
    WellFormedMembersAll(Front(m));
    WellFormedMembersAll(AudioMembers(m));
    WellFormedMembersAll(Back(m));
    assert Front(m)[5].value == JNumber(m.fps);
  }

  /** The stream-counting loop: asks for the current type at index 0, 1, 2, ... until the call
      fails, counting the indices that have a type. */
  method CountStreams(streams: seq<Option<MediaType>>) returns (streamCount: nat)
    ensures streamCount == CountPresent(streams)
  {
    streamCount := 0;
    var streamIndex := 0;
    while true
      invariant streamIndex <= |streams|
      invariant streamCount == CountPresent(streams[..streamIndex])
      decreases |streams| - streamIndex
    {
      if streamIndex >= |streams| {
        break;
      }
      assert streams[..streamIndex + 1][..streamIndex] == streams[..streamIndex];
      if streams[streamIndex].Some? {
        streamCount := streamCount + 1;
      }
      streamIndex := streamIndex + 1;
    }
    assert streams[..streamIndex] == streams;
  }

  /** The video codec chain of `ExtractVideoMetadata`, for a subtype that was read. */
  method VideoCodecOf(subtype: Guid) returns (codec: string)
    ensures codec == VideoCodecName(Some(subtype))
  {
    if subtype == H264 { codec := "h264"; }
    else if subtype == H265 { codec := "hevc"; }
    else if subtype == VP80 { codec := "vp8"; }
    else if subtype == VP90 { codec := "vp9"; }
    else if subtype == WMV3 { codec := "wmv3"; }
    else if subtype == MPEG2 { codec := "mpeg2"; }
    else { codec := "unknown"; }
  }

  /** The audio codec chain of `ExtractVideoMetadata`, for a subtype that was read. */
  method AudioCodecOf(subtype: Guid) returns (codec: string)
    ensures codec == AudioCodecName(Some(subtype))
  {
    if subtype == AAC { codec := "aac"; }
    else if subtype == MP3 { codec := "mp3"; }
    else if subtype == WMAudioV8 { codec := "wma"; }
    else if subtype == PCM { codec := "pcm"; }
    else { codec := "unknown"; }
  }

  /** `ExtractVideoMetadata`, step by step: start Media Foundation, open the reader, read the first
      video type, the duration and the first audio type, count the streams, then write the answer. */
  method ExtractVideoMetadata(src: Source) returns (json: string)
    ensures json == InfoText(src)
  {
    if !src.startupOk {
      return Write(Document(StartupFailed), false);
    }
    if src.reader.None? {
      return Write(Document(OpenFailed), false);
    }
    var reader := src.reader.value;

    var width, height, bitrate := 0, 0, 0;
    var fps := "0";
    var codec := "";
    if reader.firstVideo.Some? {
      var pType := reader.firstVideo.value;
      width := ToInt(pType.frameWidth);
      height := ToInt(pType.frameHeight);
      fps := pType.fpsText;
      bitrate := ToInt(pType.avgBitrate);
      if pType.subtype.Some? {
        codec := VideoCodecOf(pType.subtype.value);
      }
    }

    var durationMs := 0;
    if reader.duration100ns.Some? {
      durationMs := DurationMs(reader.duration100ns.value);
    }

    var hasAudio := false;
    var audioCodec := "";
    var sampleRate, channels := 0, 0;
    if reader.firstAudio.Some? {
      var pAudioType := reader.firstAudio.value;
      hasAudio := true;
      if pAudioType.subtype.Some? {
        audioCodec := AudioCodecOf(pAudioType.subtype.value);
      }
      sampleRate := ToInt(pAudioType.samplesPerSecond);
      channels := ToInt(pAudioType.numChannels);
    }

    assert codec == if reader.firstVideo.Some? then VideoCodecName(reader.firstVideo.value.subtype) else "";
    assert audioCodec == if reader.firstAudio.Some? then AudioCodecName(reader.firstAudio.value.subtype) else "";
    var container := FileExtension(src.extension);

    var streamCount := CountStreams(reader.streams);
    var m := Metadata(width, height, durationMs, codec, bitrate, fps, container, hasAudio,
                      audioCodec, sampleRate, channels, streamCount);
    assert Analyze(src) == Extracted(m);
    var data := Front(m);
    if hasAudio {
      data := data + AudioMembers(m);
    }
    data := data + Back(m);
    assert data == DataMembers(m);
    json := Write(JObject([Member("success", JBool(true)), Member("data", JObject(data))]), false);
  }

  // ---------------------------------------------------------------- the handler

  /** The string entries of a list, in order; other entries are skipped. */
  function StringEntries(items: seq<Encodable>): (r: seq<string>)
    ensures |r| <= |items|
  {
    if items == [] then []
    else
      var last := items[|items| - 1];
      StringEntries(items[..|items| - 1]) + (if last.Str? then [last.s] else [])
  }

  /** Every entry of a list of strings is kept, in order. */
  lemma {:induction false} StringEntriesAll(items: seq<Encodable>)
    requires AllStrings(items)
    ensures StringEntries(items) == Strings(items)
  {
    if items != [] {
      var init := items[..|items| - 1];
      StringEntriesAll(init);
      var r := StringEntries(items);
      assert |r| == |items|;
      forall i | 0 <= i < |items| ensures r[i] == Strings(items)[i] {
        if i < |items| - 1 {
          assert init[i] == items[i];
        }
      }
    }
  }

  /** A list without strings gives no entries. */
  lemma {:induction false} StringEntriesNone(items: seq<Encodable>)
    requires forall i :: 0 <= i < |items| ==> !items[i].Str?
    ensures StringEntries(items) == []
  {
    if items != [] {
      StringEntriesNone(items[..|items| - 1]);
    }
  }

  /** The string entries of two lists one after the other are those of the first list followed
      by those of the second: each entry is kept or skipped on its own. */
  lemma {:induction false} StringEntriesConcat(a: seq<Encodable>, b: seq<Encodable>)
    ensures StringEntries(a + b) == StringEntries(a) + StringEntries(b)
    decreases |b|
  {
    if b != [] {
      var ab := a + b;
      var init := b[..|b| - 1];
      assert ab[..|ab| - 1] == a + init;
      assert ab[|ab| - 1] == b[|b| - 1];
      StringEntriesConcat(a, init);
    } else {
      assert a + b == a;
    }
  }

  /** The answers for a list of paths, one text per path, in order. */
  function Texts(paths: seq<string>, probe: string -> Source): (r: seq<Encodable>)
    ensures |r| == |paths|
    ensures forall i :: 0 <= i < |paths| ==> r[i] == Str(InfoText(probe(paths[i])))
  {
    seq(|paths|, i requires 0 <= i < |paths| => Str(InfoText(probe(paths[i]))))
  }

  /** The answers for two lists of paths one after the other are the answers for each, in order. */
  lemma TextsConcat(p: seq<string>, q: seq<string>, probe: string -> Source)
    ensures Texts(p + q, probe) == Texts(p, probe) + Texts(q, probe)
  {
    assert forall i :: 0 <= i < |p| ==> (p + q)[i] == p[i];
    assert forall i :: |p| <= i < |p + q| ==> (p + q)[i] == q[i - |p|];
  }

  /** The `getBatch` loop: extracts every string entry in order and skips the others. */
  method BatchTexts(items: seq<Encodable>, probe: string -> Source) returns (results: seq<Encodable>)
    ensures results == Texts(StringEntries(items), probe)
  {
    results := [];
    for i := 0 to |items|
      invariant results == Texts(StringEntries(items[..i]), probe)
    {
      assert items[..i + 1][..i] == items[..i];
      if items[i].Str? {
        var json := ExtractVideoMetadata(probe(items[i].s));
        results := results + [Str(json)];
      }
    }
    assert items[..|items|] == items;
  }

  /** The value stored under `key` in a map argument, if any. */
  function Lookup(args: Encodable, key: string): Option<Encodable>
    requires args.Map?
  {
    if Str(key) in args.entries then Some(args.entries[Str(key)]) else None
  }

  /** `HandleMethodCall`: validates the arguments and answers with the text of each extraction.
      Extraction never fails the call: its failures are in the text. */
  method HandleMethodCall(call: MethodCall, probe: string -> Source) returns (reply: Reply<Encodable>)
    ensures call.name != "getInfo" && call.name != "getBatch" ==> reply == NotImplemented
    ensures (call.name == "getInfo" || call.name == "getBatch") && !call.arguments.Map? ==>
              reply == Error(InvalidArgument, Some("Arguments must be a map"))
    ensures call.name == "getInfo" && call.arguments.Map? ==>
              reply == match Lookup(call.arguments, "path")
                       case None => Error(InvalidArgument, Some("Path is required"))
                       case Some(Str(path)) => Success(Str(InfoText(probe(path))))
                       case Some(_) => Error(InvalidArgument, Some("Path must be a string"))
    ensures call.name == "getBatch" && call.arguments.Map? ==>
              reply == match Lookup(call.arguments, "paths")
                       case None => Error(InvalidArgument, Some("Paths list is required"))
                       case Some(List(items)) =>
                         if items == [] then Error(InvalidArgument, Some("Paths must be a non-empty list"))
                         else Success(List(Texts(StringEntries(items), probe)))
                       case Some(_) => Error(InvalidArgument, Some("Paths must be a non-empty list"))
  {
    if call.name == "getInfo" {
      if !call.arguments.Map? {
        return Error(InvalidArgument, Some("Arguments must be a map"));
      }
      var pathValue := Lookup(call.arguments, "path");
      if pathValue.None? {
        return Error(InvalidArgument, Some("Path is required"));
      }
      if !pathValue.value.Str? {
        return Error(InvalidArgument, Some("Path must be a string"));
      }
      var json := ExtractVideoMetadata(probe(pathValue.value.s));
      reply := Success(Str(json));
    } else if call.name == "getBatch" {
      if !call.arguments.Map? {
        return Error(InvalidArgument, Some("Arguments must be a map"));
      }
      var pathsValue := Lookup(call.arguments, "paths");
      if pathsValue.None? {
        return Error(InvalidArgument, Some("Paths list is required"));
      }
      if !pathsValue.value.List? || pathsValue.value.items == [] {
        return Error(InvalidArgument, Some("Paths must be a non-empty list"));
      }
      var results := BatchTexts(pathsValue.value.items, probe);
      reply := Success(List(results));
    } else {
      reply := NotImplemented;
    }
  }

  /** A single entry is kept iff it is a string. */
  lemma StringEntriesOne(item: Encodable)
    ensures StringEntries([item]) == (if item.Str? then [item.s] else [])
  {
    assert [item][..0] == [];
  }

  /** The string entries around one entry of a list: those before it, its own, those after it. */
  lemma StringEntriesAround(before: seq<Encodable>, item: Encodable, after: seq<Encodable>)
    ensures StringEntries(before + [item] + after)
            == StringEntries(before) + (if item.Str? then [item.s] else []) + StringEntries(after)
  {
    StringEntriesConcat(before + [item], after);
    StringEntriesConcat(before, [item]);
    StringEntriesOne(item);
  }

  /** In a mixed list each entry is answered on its own: a string entry gives one text at its
      place in the answers, and any other entry gives none and leaves the rest unchanged. */
  lemma BatchEntry(before: seq<Encodable>, item: Encodable, after: seq<Encodable>, probe: string -> Source)
    ensures Texts(StringEntries(before + [item] + after), probe)
            == Texts(StringEntries(before), probe)
               + (if item.Str? then [Str(InfoText(probe(item.s)))] else [])
               + Texts(StringEntries(after), probe)
  {
    var e1, e2, e3 := StringEntries(before), (if item.Str? then [item.s] else []), StringEntries(after);
    StringEntriesAround(before, item, after);
    TextsConcat(e1 + e2, e3, probe);
    TextsConcat(e1, e2, probe);
  }

  /** A batch answers at most one text per entry, and exactly one per path, in order, for a list
      of strings. */
  lemma BatchOneToOne(items: seq<Encodable>, probe: string -> Source)
    ensures |Texts(StringEntries(items), probe)| <= |items|
    ensures AllStrings(items) ==>
              var r := Texts(StringEntries(items), probe);
              |r| == |items| && forall i :: 0 <= i < |items| ==> r[i] == Str(InfoText(probe(items[i].s)))
  {
    if AllStrings(items) {
      StringEntriesAll(items);
    }
  }
}
