/** The Web backend: `getInfo` checks the URL scheme, loads the URL into a `<video>` element and
    turns the element's properties into the metadata object; `getBatch` runs `getInfo` over a list
    of URLs, fail-fast, and keeps the `JSON.stringify` form of each answer. The browser is a
    parameter: what loading a URL produces and what the URL parser gives as its pathname. */
module WebPlugin {
  import opened Outcomes
  import opened Batch
  import opened Text
  import opened Json
  import opened Schema

  /** The properties of a `<video>` element that `extractMetadata` reads once `loadedmetadata` fired. */
  datatype VideoElement = VideoElement(
    videoWidth: nat,
    videoHeight: nat,
    durationMs: int,                   // Math.round(duration * 1000)
    mozHasAudio: bool,                 // false where the property is undefined
    webkitAudioDecodedByteCount: nat,  // 0 where the property is undefined
    audioTracks: Option<nat>,          // audioTracks.length, when the list exists
    textTracks: Option<nat>)           // textTracks.length, when the list exists

  /** How loading a URL into the element ends: `loadedmetadata`, `error` (with the element's
      `error.message` when it has an error object) or the 10 second timer. */
  datatype LoadEvent = LoadedMetadata(video: VideoElement) | LoadFailed(message: Option<string>) | TimedOut

  /** The browser as the backend sees it. */
  datatype Browser = Browser(load: string -> LoadEvent, pathname: string -> string)

  /** A JavaScript value of the metadata object. */
  datatype JsValue = JsNumber(n: int) | JsString(s: string) | JsBoolean(b: bool) | Undefined

  /** One property of the metadata object; the object is the list of its properties in insertion order. */
  datatype Property = Property(field: Field, value: JsValue)

  const SchemeMessage: string := "Web platform only supports URLs (http://, https://, blob:)"
  const DimensionsMessage: string := "Invalid video dimensions"
  const TimeoutMessage: string := "Metadata extraction timed out"
  const LoadMessage: string := "Failed to load video"

  /** The fields of the metadata object in the order they are added. */
  function Fields(props: seq<Property>): (r: seq<Field>)
    ensures |r| == |props|
    ensures forall i :: 0 <= i < |props| ==> r[i] == props[i].field
  {
    seq(|props|, i requires 0 <= i < |props| => props[i].field)
  }

  /** The fields every metadata object starts with, in order. */
  const BaseFields: seq<Field> := [Width, Height, Duration, Codec, Bitrate, Fps, Rotation, Container,
                                   HasAudio, HasSubtitles, StreamCount]

  /** The fields added when there is audio, in order. */
  const AudioFields: seq<Field> := [AudioCodec, SampleRate, Channels]

  // ---------------------------------------------------------------- the URL

  /** The schemes `getInfo` accepts. */
  predicate SchemeAllowed(url: string)
  {
    StartsWith(url, "http://") || StartsWith(url, "https://") || StartsWith(url, "blob:")
  }

  /** The container: the last piece of the pathname split on '.', lower-cased, or "unknown" when
      the pathname has no '.'. */
  function ContainerOf(pathname: string): string
  {
    var parts := Split(pathname, '.');
    if |parts| > 1 then Lower(parts[|parts| - 1]) else "unknown"
  }

  /** The container is "unknown" when the pathname has no '.' (a pathname such as "/a.unknown"
      gives it too), and otherwise the lower-cased text after the last '.', which may cross a '/'
      ("/a.b/c" gives "b/c"). */
  lemma ContainerRule(pathname: string)
    ensures '.' !in pathname ==> ContainerOf(pathname) == "unknown"
    ensures '.' in pathname ==>
              exists k :: 0 <= k < |pathname| && pathname[k] == '.' && '.' !in pathname[k + 1..]
                          && ContainerOf(pathname) == Lower(pathname[k + 1..])
  {
    SplitLast(pathname, '.');
    if '.' in pathname {
      var parts := Split(pathname, '.');
      var last := parts[|parts| - 1];
      var k := |pathname| - |last| - 1;
      assert pathname[k + 1..] == last;
    }
  }

  /** The codec guessed from the URL: the first test that matches, in order. */
  function GuessCodec(url: string): (codec: string)
    ensures codec in {"h264", "vp8", "theora", "unknown"}
    ensures codec == "h264" <==> Contains(url, ".mp4") || Contains(url, ".m4v")
    ensures codec == "unknown" <==> !Contains(url, ".mp4") && !Contains(url, ".m4v")
                                    && !Contains(url, ".webm") && !Contains(url, ".ogv")
    ensures codec == "vp8" <==> !Contains(url, ".mp4") && !Contains(url, ".m4v") && Contains(url, ".webm")
    ensures codec == "theora" <==> !Contains(url, ".mp4") && !Contains(url, ".m4v")
                                   && !Contains(url, ".webm") && Contains(url, ".ogv")
  {
    if Contains(url, ".mp4") || Contains(url, ".m4v") then "h264"
    else if Contains(url, ".webm") then "vp8"
    else if Contains(url, ".ogv") then "theora"
    else "unknown"
  }

  /** An ".mp4" anywhere in the URL decides the codec, whatever else the URL contains:
      "x.mp4.webm" gives "h264". */
  lemma Mp4Wins(pre: string, post: string)
    ensures GuessCodec(pre + ".mp4" + post) == "h264"
  {
    ContainsInfix(pre, ".mp4", post);
  }

  /** ".webm" gives "vp8" unless an MPEG-4 extension appears as well. */
  lemma WebmIsVp8(pre: string, post: string)
    requires !Contains(pre + ".webm" + post, ".mp4") && !Contains(pre + ".webm" + post, ".m4v")
    ensures GuessCodec(pre + ".webm" + post) == "vp8"
  {
    ContainsInfix(pre, ".webm", post);
  }

  // ---------------------------------------------------------------- the element

  /** `hasAudio`: Firefox's flag, decoded audio bytes, or a non-empty audio track list. */
  function AudioDetected(v: VideoElement): bool
  {
    v.mozHasAudio || v.webkitAudioDecodedByteCount > 0 || (v.audioTracks.Some? && v.audioTracks.value > 0)
  }

  /** `streamCount`: the video stream, plus the audio tracks when there is audio, counted as one
      when the browser has no audio track list. */
  function CountStreams(v: VideoElement): (n: int)
    ensures !AudioDetected(v) ==> n == 1
    ensures AudioDetected(v) && v.audioTracks.None? ==> n == 2
    ensures AudioDetected(v) && v.audioTracks.Some? ==> n == 1 + v.audioTracks.value
  {
    1 + (if AudioDetected(v) then (if v.audioTracks.Some? then v.audioTracks.value else 1) else 0)
  }

  /** `hasSubtitles`: `undefined` when the browser has no text track list. */
  function SubtitleFlag(v: VideoElement): JsValue
  {
    if v.textTracks.Some? then JsBoolean(v.textTracks.value > 0) else Undefined
  }

  /** What `extractMetadata` returns or throws for an element loaded from `url`, whose pathname is
      `pathname`. */
  function Metadata(v: VideoElement, url: string, pathname: string): Result<seq<Property>, string>
  {
    if v.videoWidth == 0 || v.videoHeight == 0 then Err(DimensionsMessage)
    else
      var hasAudio := AudioDetected(v);
      var base := [
        Property(Width, JsNumber(v.videoWidth)), Property(Height, JsNumber(v.videoHeight)),
        Property(Duration, JsNumber(v.durationMs)), Property(Codec, JsString(GuessCodec(url))),
        Property(Bitrate, JsNumber(0)), Property(Fps, JsNumber(30)), Property(Rotation, JsNumber(0)),
        Property(Container, JsString(ContainerOf(pathname))), Property(HasAudio, JsBoolean(hasAudio)),
        Property(HasSubtitles, SubtitleFlag(v)), Property(StreamCount, JsNumber(CountStreams(v)))];
      Ok(if hasAudio then base + AudioDefaults() else base)
  }

  /** The audio properties `extractMetadata` adds; the Web API gives none of them. */
  function AudioDefaults(): seq<Property>
  {
    [Property(AudioCodec, JsString("unknown")), Property(SampleRate, JsNumber(44100)), Property(Channels, JsNumber(2))]
  }

  /** The shape of the metadata object: it fails exactly for a zero dimension; its fields come in
      the fixed order, with the audio fields at the end exactly when there is audio; bitrate,
      fps and rotation are the constants 0, 30 and 0. */
  lemma MetadataShape(v: VideoElement, url: string, pathname: string)
    ensures Metadata(v, url, pathname).Err? <==> v.videoWidth == 0 || v.videoHeight == 0
    ensures Metadata(v, url, pathname).Err? ==> Metadata(v, url, pathname).error == DimensionsMessage
    ensures Metadata(v, url, pathname).Ok? ==>
              var props := Metadata(v, url, pathname).value;
              && Fields(props) == (if AudioDetected(v) then BaseFields + AudioFields else BaseFields)
              && props[4].value == JsNumber(0) && props[5].value == JsNumber(30) && props[6].value == JsNumber(0)
              && props[8].value == JsBoolean(AudioDetected(v))
              && (props[9].value == Undefined <==> v.textTracks.None?)
              && (AudioDetected(v) ==> props[11..] == AudioDefaults())
  {
    if v.videoWidth != 0 && v.videoHeight != 0 {
      var props := Metadata(v, url, pathname).value;
      if AudioDetected(v) {
        assert Fields(props) == BaseFields + AudioFields;
      } else {
        assert Fields(props) == BaseFields;
      }
    }
  }

  /** The values of the metadata object: size and duration from the element, the codec guessed
      from the URL, the container from the pathname, the stream count, and, when the browser has a
      text track list, whether it is non-empty. */
  lemma MetadataValues(v: VideoElement, url: string, pathname: string)
    requires Metadata(v, url, pathname).Ok?
    ensures var props := Metadata(v, url, pathname).value;
            && |props| >= 11
            && props[0].value == JsNumber(v.videoWidth) && props[1].value == JsNumber(v.videoHeight)
            && props[2].value == JsNumber(v.durationMs)
            && props[3].value == JsString(GuessCodec(url))
            && props[7].value == JsString(ContainerOf(pathname))
            && props[10].value == JsNumber(CountStreams(v))
            && (v.textTracks.Some? ==> props[9].value == JsBoolean(v.textTracks.value > 0))
  {
  }

  /** `extractMetadata`, step by step: check the size, take the container and the codec, work out
      the audio flag and the stream count, build the object and add the audio fields to it. */
  method ExtractMetadata(v: VideoElement, url: string, pathname: string) returns (r: Result<seq<Property>, string>)
    ensures r == Metadata(v, url, pathname)
  {
    if v.videoWidth == 0 || v.videoHeight == 0 {
      return Err(DimensionsMessage);
    }
    var pathParts := Split(pathname, '.');
    var container := if |pathParts| > 1 then Lower(pathParts[|pathParts| - 1]) else "unknown";
    var codec := "unknown";
    if Contains(url, ".mp4") || Contains(url, ".m4v") {
      codec := "h264";
    } else if Contains(url, ".webm") {
      codec := "vp8";
    } else if Contains(url, ".ogv") {
      codec := "theora";
    }
    var hasAudio := v.mozHasAudio || v.webkitAudioDecodedByteCount > 0
                    || (v.audioTracks.Some? && v.audioTracks.value > 0);
    var streamCount := 1;
    if hasAudio {
      streamCount := streamCount + if v.audioTracks.Some? then v.audioTracks.value else 1;
    }
    var hasSubtitles := if v.textTracks.Some? then JsBoolean(v.textTracks.value > 0) else Undefined;
    var metadata := [
      Property(Width, JsNumber(v.videoWidth)), Property(Height, JsNumber(v.videoHeight)),
      Property(Duration, JsNumber(v.durationMs)), Property(Codec, JsString(codec)),
      Property(Bitrate, JsNumber(0)), Property(Fps, JsNumber(30)), Property(Rotation, JsNumber(0)),
      Property(Container, JsString(container)), Property(HasAudio, JsBoolean(hasAudio)),
      Property(HasSubtitles, hasSubtitles), Property(StreamCount, JsNumber(streamCount))];
    assert container == ContainerOf(pathname);
    assert codec == GuessCodec(url);
    assert streamCount == CountStreams(v);
    ghost var base := metadata;
    if hasAudio {
      metadata := metadata + [Property(AudioCodec, JsString("unknown"))];
      metadata := metadata + [Property(SampleRate, JsNumber(44100))];
      metadata := metadata + [Property(Channels, JsNumber(2))];
      assert metadata == base + AudioDefaults();
    }
    r := Ok(metadata);
  }

  // ---------------------------------------------------------------- getInfo and getBatch

  /** What `getInfo` resolves with (the `data` of `{success: true, data}`) or rejects with (the
      `error` of `{success: false, error}`). */
  function GetInfo(browser: Browser, url: string): (r: Result<seq<Property>, string>)
    ensures !SchemeAllowed(url) ==> r == Err(SchemeMessage)
    ensures SchemeAllowed(url) && browser.load(url).LoadedMetadata? ==>
              r == Metadata(browser.load(url).video, url, browser.pathname(url))
    ensures SchemeAllowed(url) && browser.load(url).TimedOut? ==> r == Err(TimeoutMessage)
    ensures SchemeAllowed(url) && browser.load(url).LoadFailed? ==>
              r == Err(if browser.load(url).message.Some? then browser.load(url).message.value else LoadMessage)
  {
    if !SchemeAllowed(url) then Err(SchemeMessage)
    else match browser.load(url)
      case TimedOut => Err(TimeoutMessage)
      case LoadFailed(message) => Err(if message.Some? then message.value else LoadMessage)
      case LoadedMetadata(v) => Metadata(v, url, browser.pathname(url))
  }

  /** A URL with another scheme is rejected before the browser is asked anything: any two
      browsers give the same answer. */
  lemma SchemeCheckedFirst(b1: Browser, b2: Browser, url: string)
    requires !SchemeAllowed(url)
    ensures GetInfo(b1, url) == GetInfo(b2, url)
  {
  }

  /** A URL with an accepted scheme succeeds exactly when the metadata loads and has a size. */
  lemma GetInfoOk(browser: Browser, url: string)
    ensures GetInfo(browser, url).Ok? <==>
              SchemeAllowed(url) && browser.load(url).LoadedMetadata?
              && browser.load(url).video.videoWidth > 0 && browser.load(url).video.videoHeight > 0
  {
  }

  /** `JSON.stringify` of a metadata value. */
  function ValueJson(v: JsValue): Json
    requires v != Undefined
  {
    match v
    case JsNumber(n) => JInt(n)
    case JsString(s) => JString(s)
    case JsBoolean(b) => JBool(b)
  }

  /** The members `JSON.stringify` writes for an object: its properties in order, except those
      whose value is `undefined`, which it leaves out. */
  function Members(props: seq<Property>): (r: seq<Member>)
    ensures |r| <= |props|
  {
    if props == [] then []
    else
      var rest := Members(props[1..]);
      if props[0].value == Undefined then rest
      else [Member(Name(props[0].field), ValueJson(props[0].value))] + rest
  }

  /** Properties that are all defined are all written, in order. */
  lemma {:induction false} MembersDefined(props: seq<Property>)
    requires forall i :: 0 <= i < |props| ==> props[i].value != Undefined
    ensures Keys(Members(props)) == seq(|props|, i requires 0 <= i < |props| => Name(props[i].field))
  {
    if props != [] {
      MembersDefined(props[1..]);
    }
  }

  /** The value `JSON.stringify` turns into one entry of the `getBatch` list: `{success: true, data}`. */
  function Envelope(data: seq<Property>): Json
  {
    JObject([Member("success", JBool(true)), Member("data", JObject(Members(data)))])
  }

  /** A field's key is written exactly when the object has a defined property for that field. */
  lemma {:induction false} KeyWritten(props: seq<Property>, f: Field)
    ensures Name(f) in Keys(Members(props)) <==>
              exists i :: 0 <= i < |props| && props[i].field == f && props[i].value != Undefined
  {
    if props != [] {
      KeyWritten(props[1..], f);
      if props[0].field != f {
        NamesDistinct(props[0].field, f);
      }
      if exists i :: 0 <= i < |props| && props[i].field == f && props[i].value != Undefined {
        var i :| 0 <= i < |props| && props[i].field == f && props[i].value != Undefined;
        if i > 0 {
          assert props[1..][i - 1] == props[i];
        }
      }
      if exists i :: 0 <= i < |props[1..]| && props[1..][i].field == f && props[1..][i].value != Undefined {
        var i :| 0 <= i < |props[1..]| && props[1..][i].field == f && props[1..][i].value != Undefined;
        assert props[i + 1] == props[1..][i];
      }
    }
  }

  /** One entry of the `getBatch` list: the answer of `getInfo`, made into a JSON value. */
  function BatchItem(browser: Browser): string -> Result<Json, string>
  {
    url => match GetInfo(browser, url) case Ok(data) => Ok(Envelope(data)) case Err(e) => Err(e)
  }

  /** `getBatch`: asks `getInfo` for each URL in order and rethrows the first rejection;
      `probed` counts the URLs handed to `getInfo`. */
  method GetBatch(browser: Browser, urls: seq<string>) returns (r: Result<seq<Json>, string>, ghost probed: nat)
    ensures r == FailFast(urls, BatchItem(browser))
    ensures r.Ok? ==> probed == |urls| && |r.value| == |urls|
    ensures r.Ok? ==> forall i :: 0 <= i < |urls| ==>
                        GetInfo(browser, urls[i]).Ok? && r.value[i] == Envelope(GetInfo(browser, urls[i]).value)
    ensures r.Err? ==> FirstFailure(urls, BatchItem(browser), probed - 1)
                       && r.error == GetInfo(browser, urls[probed - 1]).error
  {
    r, probed := Run(urls, BatchItem(browser));
    if r.Ok? {
      FailFastOk(urls, BatchItem(browser));
    }
  }

  /** An empty list of URLs resolves to an empty list. */
  lemma EmptyBatch(browser: Browser)
    ensures FailFast([], BatchItem(browser)) == Ok([])
  {
  }
}
