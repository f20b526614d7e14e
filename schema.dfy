/** The fields of the canonical metadata record, shared by every backend, and their JSON names. */
module Schema {

  datatype Field =
    | Width | Height | Duration | Codec | Bitrate | Fps | Rotation | Container
    | AudioCodec | SampleRate | Channels | HasAudio | HasSubtitles | StreamCount

  /** The key under which a field is written. */
  function Name(f: Field): string
  {
    match f
    case Width => "width"
    case Height => "height"
    case Duration => "duration"
    case Codec => "codec"
    case Bitrate => "bitrate"
    case Fps => "fps"
    case Rotation => "rotation"
    case Container => "container"
    case AudioCodec => "audioCodec"
    case SampleRate => "sampleRate"
    case Channels => "channels"
    case HasAudio => "hasAudio"
    case HasSubtitles => "hasSubtitles"
    case StreamCount => "streamCount"
  }

  /** The keys of a list of fields, in order. */
  function Names(fields: seq<Field>): (r: seq<string>)
    ensures |r| == |fields|
    ensures forall i :: 0 <= i < |fields| ==> r[i] == Name(fields[i])
  {
    seq(|fields|, i requires 0 <= i < |fields| => Name(fields[i]))
  }

  lemma NamesConcat(a: seq<Field>, b: seq<Field>)
    ensures Names(a + b) == Names(a) + Names(b)
  {
  }

  /** The fields that are always present. */
  const Required: set<Field> := {Width, Height, Duration, Codec, Bitrate, Fps, Rotation, Container,
                                 HasAudio, HasSubtitles, StreamCount}

  /** The fields that describe the audio track; they may be absent. */
  const Audio: set<Field> := {AudioCodec, SampleRate, Channels}

  /** Every field is either required or an audio field. */
  lemma FieldsPartition(f: Field)
    ensures f in Required <==> f !in Audio
  {
  }

  /** Distinct fields have distinct names, so a record's keys never collide. */
  lemma NamesDistinct(f: Field, g: Field)
    requires f != g
    ensures Name(f) != Name(g)
  {
    assert Name(f)[..2] != Name(g)[..2] || |Name(f)| != |Name(g)| || Name(f)[2..] != Name(g)[2..];
  }
}
