/** The two pure helpers of the iOS backend: snapping a rotation angle to a quadrant
    (`getRotationFromTransform`) and decoding a four-character code (`fourCCToString`). */
module IosCodes {

  // ---------------------------------------------------------------- rotation

  /** Swift's `Int(x)` for a finite `Double`: the integer part, truncated toward zero. */
  function TruncateTowardZero(x: real): (n: int)
    ensures 0.0 <= x ==> n as real <= x < n as real + 1.0
    ensures x < 0.0 ==> n as real - 1.0 < x <= n as real
  {
    if x >= 0.0 then x.Floor else -((-x).Floor)
  }

  /** The switch of `getRotationFromTransform`: a whole number of degrees within 5 of 90, of 180
      or -180, or of -90 gives 90, 180 or 270; everything else gives 0. */
  function SnapRotation(degrees: int): (r: int)
    ensures r in {0, 90, 180, 270}
  {
    if 85 <= degrees <= 95 then 90
    else if 175 <= degrees <= 185 || -185 <= degrees <= -175 then 180
    else if -95 <= degrees <= -85 then 270
    else 0
  }

  /** The rotation for a transform whose angle, `atan2(b, a)` converted to degrees, is `angle`:
      the angle is truncated toward zero, then snapped. */
  function RotationFromAngle(angle: real): (r: int)
    ensures r in {0, 90, 180, 270}
  {
    SnapRotation(TruncateTowardZero(angle))
  }

  /** The bands of the switch, both ways: which degrees give which rotation. */
  lemma SnapBands(d: int)
    ensures SnapRotation(d) == 90 <==> 85 <= d <= 95
    ensures SnapRotation(d) == 180 <==> 175 <= d <= 185 || -185 <= d <= -175
    ensures SnapRotation(d) == 270 <==> -95 <= d <= -85
    ensures SnapRotation(d) == 0 <==> !(85 <= d <= 95 || 175 <= d <= 185 || -185 <= d <= -175 || -95 <= d <= -85)
  {
  }

  /** The bands on the angle itself: because the angle is truncated toward zero first, each band
      reaches almost one degree further away from zero (89.9 gives 90, 95.9 still gives 90,
      -84.9 gives 0). */
  lemma RotationBands(angle: real)
    ensures RotationFromAngle(angle) == 90 <==> 85.0 <= angle < 96.0
    ensures RotationFromAngle(angle) == 180 <==> 175.0 <= angle < 186.0 || -186.0 < angle <= -175.0
    ensures RotationFromAngle(angle) == 270 <==> -96.0 < angle <= -85.0
  {
    var d := TruncateTowardZero(angle);
    SnapBands(d);
    if 0.0 <= angle {
      assert 85 <= d <= 95 <==> 85.0 <= angle < 96.0;
      assert 175 <= d <= 185 <==> 175.0 <= angle < 186.0;
    } else {
      assert -95 <= d <= -85 <==> -96.0 < angle <= -85.0;
      assert -185 <= d <= -175 <==> -186.0 < angle <= -175.0;
    }
  }

  /** Snapping is idempotent once 270 is read back as the angle -90 it stands for: a snapped
      rotation, as an angle in (-180, 180], snaps to itself. */
  lemma SnapIdempotent(d: int)
    ensures var r := SnapRotation(d);
            SnapRotation(if r > 180 then r - 360 else r) == r
  {
  }

  // ---------------------------------------------------------------- four-character codes

  /** A `FourCharCode`: an unsigned 32-bit integer. */
  type FourCharCode = n: nat | n < 0x1_0000_0000

  /** The four bytes of a code, most significant first: `(c >> 24) & 0xff`, ..., `c & 0xff`. */
  function CodeBytes(code: FourCharCode): (b: seq<nat>)
    ensures |b| == 4
    ensures forall i :: 0 <= i < 4 ==> b[i] < 256
  {
    [(code / 0x100_0000) % 256, (code / 0x1_0000) % 256, (code / 0x100) % 256, code % 256]
  }

  /** Every byte fits in a `CChar`; `CChar(...)` of a byte above 0x7F traps. */
  predicate AsciiCode(code: FourCharCode)
  {
    forall i :: 0 <= i < 4 ==> CodeBytes(code)[i] <= 0x7F
  }

  /** `String(cString:)`: the characters before the first zero byte. */
  function CString(bytes: seq<nat>): (s: string)
    requires forall i :: 0 <= i < |bytes| ==> bytes[i] <= 0x7F
    ensures |s| <= |bytes|
    ensures forall i :: 0 <= i < |s| ==> s[i] as int == bytes[i] && bytes[i] != 0
    ensures |s| < |bytes| ==> bytes[|s|] == 0
  {
    if bytes == [] || bytes[0] == 0 then [] else [bytes[0] as char] + CString(bytes[1..])
  }

  /** The characters `trimmingCharacters(in: .whitespaces)` removes from ASCII text: space and tab. */
  predicate IsBlank(c: char)
  {
    c == ' ' || c == '\t'
  }

  /** How many blanks `s` starts with. */
  function LeadingBlanks(s: string): (n: nat)
    ensures n <= |s|
    ensures forall i :: 0 <= i < n ==> IsBlank(s[i])
    ensures n < |s| ==> !IsBlank(s[n])
  {
    if s != [] && IsBlank(s[0]) then 1 + LeadingBlanks(s[1..]) else 0
  }

  /** How many blanks `s` ends with. */
  function TrailingBlanks(s: string): (n: nat)
    ensures n <= |s|
    ensures forall i :: |s| - n <= i < |s| ==> IsBlank(s[i])
    ensures n < |s| ==> !IsBlank(s[|s| - n - 1])
  {
    if s != [] && IsBlank(s[|s| - 1]) then 1 + TrailingBlanks(s[..|s| - 1]) else 0
  }

  /** Removes the leading blanks. */
  function TrimStart(s: string): string
  {
    s[LeadingBlanks(s)..]
  }

  /** Removes the trailing blanks. */
  function TrimEnd(s: string): string
  {
    s[..|s| - TrailingBlanks(s)]
  }

  /** Removes blanks at both ends and keeps everything between them. */
  function Trim(s: string): (r: string)
    ensures |r| <= |s|
  {
    TrimEnd(TrimStart(s))
  }

  /** What `Trim` keeps is one contiguous run of `s`, what it drops on either side is blank, and
      the run neither starts nor ends with a blank. */
  lemma TrimKeepsInside(s: string)
    ensures var lo := |s| - |TrimStart(s)|;
            var r := Trim(s);
            && lo + |r| <= |s| && r == s[lo..lo + |r|]
            && (forall i :: 0 <= i < lo ==> IsBlank(s[i]))
            && (forall i :: lo + |r| <= i < |s| ==> IsBlank(s[i]))
    ensures Trim(s) == [] || (!IsBlank(Trim(s)[0]) && !IsBlank(Trim(s)[|Trim(s)| - 1]))
  {
    var lo := LeadingBlanks(s);
    var t := s[lo..];
    var k := TrailingBlanks(t);
    var r := t[..|t| - k];
    assert r == s[lo..|s| - k];
    forall i | lo + |r| <= i < |s| ensures IsBlank(s[i]) {
      assert s[i] == t[i - lo];
    }
    if r != [] {
      assert r[0] == s[lo];
      assert r[|r| - 1] == t[|t| - k - 1];
    }
  }

  /** `fourCCToString`: the bytes most significant first, up to the first zero byte, with blanks
      trimmed from both ends. */
  function FourCCToString(code: FourCharCode): (s: string)
    requires AsciiCode(code)
    ensures |s| <= 4
    ensures forall i :: 0 <= i < |s| ==> s[i] != 0 as char
  {
    Trim(CString(CodeBytes(code)))
  }

  /** The code whose bytes, most significant first, are the four characters of `s`. */
  function Pack(s: string): FourCharCode
    requires |s| == 4 && forall i :: 0 <= i < 4 ==> s[i] as int < 256
  {
    ((s[0] as int * 256 + s[1] as int) * 256 + s[2] as int) * 256 + s[3] as int
  }

  /** Unpacking a packed code gives back its bytes in order: the layout is big-endian. */
  lemma PackBytes(s: string)
    requires |s| == 4 && forall i :: 0 <= i < 4 ==> s[i] as int < 256
    ensures CodeBytes(Pack(s)) == [s[0] as int, s[1] as int, s[2] as int, s[3] as int]
  {
    var a, b, c, d := s[0] as int, s[1] as int, s[2] as int, s[3] as int;
    var n := Pack(s);
    var lo24, lo16, lo8 := b * 0x1_0000 + c * 0x100 + d, c * 0x100 + d, d;
    assert n == a * 0x100_0000 + lo24 && 0 <= lo24 < 0x100_0000;
    assert n / 0x100_0000 == a;
    assert n == (a * 256 + b) * 0x1_0000 + lo16 && 0 <= lo16 < 0x1_0000;
    assert n / 0x1_0000 == a * 256 + b;
    assert n == ((a * 256 + b) * 256 + c) * 0x100 + lo8 && 0 <= lo8 < 0x100;
    assert n / 0x100 == (a * 256 + b) * 256 + c;
    assert (a * 256 + b) % 256 == b;
    assert ((a * 256 + b) * 256 + c) % 256 == c;
    assert n % 256 == d;
  }

  /** Bytes without a zero are all kept by `String(cString:)`. */
  lemma {:induction false} CStringNoZero(bytes: seq<nat>)
    requires forall i :: 0 <= i < |bytes| ==> 0 < bytes[i] <= 0x7F
    ensures CString(bytes) == seq(|bytes|, i requires 0 <= i < |bytes| => bytes[i] as char)
  {
    if bytes != [] {
      CStringNoZero(bytes[1..]);
    }
  }

  /** Four characters of ASCII text, none of them NUL, survive packing and decoding up to the
      trimming of blanks at the ends: `fourCCToString` inverts the packing of a tag like "avc1". */
  lemma FourCCRoundTrip(s: string)
    requires |s| == 4 && forall i :: 0 <= i < 4 ==> 0 < s[i] as int <= 0x7F
    ensures AsciiCode(Pack(s))
    ensures FourCCToString(Pack(s)) == Trim(s)
  {
    PackBytes(s);
    var bytes := CodeBytes(Pack(s));
    CStringNoZero(bytes);
    assert CString(bytes) == s;
  }

  /** Text without blanks at its ends is left as it is. */
  lemma TrimUnblanked(s: string)
    requires s != [] && !IsBlank(s[0]) && !IsBlank(s[|s| - 1])
    ensures Trim(s) == s
  {
    assert LeadingBlanks(s) == 0;
    assert TrailingBlanks(s) == 0;
  }

  /** Four ASCII characters without blanks at the ends decode from their packed code unchanged. */
  lemma TagDecodes(code: FourCharCode, s: string)
    requires |s| == 4 && forall i :: 0 <= i < 4 ==> 0 < s[i] as int <= 0x7F
    requires !IsBlank(s[0]) && !IsBlank(s[3])
    requires code == Pack(s)
    ensures AsciiCode(code) && FourCCToString(code) == s
  {
    FourCCRoundTrip(s);
    TrimUnblanked(s);
  }

  /** Three ASCII characters padded with one blank decode to the three characters alone. */
  lemma PaddedTagDecodes(code: FourCharCode, t: string, b: char)
    requires |t| == 3 && forall i :: 0 <= i < 3 ==> 0 < t[i] as int <= 0x7F
    requires IsBlank(b) && !IsBlank(t[0]) && !IsBlank(t[2])
    requires code == Pack(t + [b])
    ensures AsciiCode(code) && FourCCToString(code) == t
  {
    var s := t + [b];
    FourCCRoundTrip(s);
    assert LeadingBlanks(s) == 0;
    assert TrailingBlanks(s) == 1 by {
      assert s[..3] == t;
      assert TrailingBlanks(t) == 0;
    }
    assert Trim(s) == s[..3];
  }

  /** The tag of an AVC sample entry decodes to "avc1". */
  lemma AvcTag(code: FourCharCode)
    requires code == 0x61766331
    ensures AsciiCode(code) && FourCCToString(code) == "avc1"
  {
    var s := "avc1";
    assert s[0] as int == 0x61 && s[1] as int == 0x76 && s[2] as int == 0x63 && s[3] as int == 0x31;
    TagDecodes(code, s);
  }

  /** The tag of an MPEG-4 audio sample entry decodes to "mp4a". */
  lemma Mp4aTag(code: FourCharCode)
    requires code == 0x6d703461
    ensures AsciiCode(code) && FourCCToString(code) == "mp4a"
  {
    var s := "mp4a";
    assert s[0] as int == 0x6d && s[1] as int == 0x70 && s[2] as int == 0x34 && s[3] as int == 0x61;
    TagDecodes(code, s);
  }

  /** A tag padded with a trailing space loses the space: "raw " gives "raw". */
  lemma PaddedTag(code: FourCharCode)
    requires code == 0x72617720
    ensures AsciiCode(code) && FourCCToString(code) == "raw"
  {
    var t := "raw";
    var s := t + [' '];
    assert s[0] as int == 0x72 && s[1] as int == 0x61 && s[2] as int == 0x77 && s[3] as int == 0x20;
    PaddedTagDecodes(code, t, ' ');
  }
}
