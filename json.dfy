/** The part of JSON (RFC 8259) that the backends emit: objects with ordered members, strings,
    integers, number tokens and booleans, and their text. `Write(v, true)` is the RFC 8259 text of
    `v`; `Write(v, false)` is the same text with string contents copied verbatim, which is how a
    hand-written emitter that does not escape produces it. */
module Json {
  import opened Outcomes
  import opened Text

  datatype Json =
    | JBool(b: bool)
    | JInt(i: int)
    | JNumber(token: string)  // a number already rendered as text, e.g. by an output stream
    | JString(s: string)
    | JObject(members: seq<Member>)

  datatype Member = Member(key: string, value: Json)

  /** A character that section 7 of RFC 8259 requires to be escaped inside a string. */
  predicate NeedsEscape(c: char)
  {
    c == '"' || c == '\\' || c < ' '
  }

  /** A string that can be written between quotes as it is. */
  predicate Plain(s: string)
  {
    forall i :: 0 <= i < |s| ==> !NeedsEscape(s[i])
  }

  function HexDigit(d: int): char
    requires 0 <= d < 16
  {
    "0123456789abcdef"[d]
  }

  lemma HexDigitValue(d: int)
    requires 0 <= d < 16
    ensures HexValue(HexDigit(d)) == Some(d)
  {
  }

  /** The escape sequence for one character: `\"`, `\\`, or `\u00XX` for a control character. */
  function EscapeChar(c: char): (r: string)
    ensures |r| >= 1
    ensures NeedsEscape(c) <==> r != [c]
  {
    if c == '"' then "\\\""
    else if c == '\\' then "\\\\"
    else if c < ' ' then "\\u00" + [HexDigit(c as int / 16), HexDigit(c as int % 16)]
    else [c]
  }

  /** The body of a JSON string literal for `s`. */
  function Escape(s: string): string
  {
    if s == [] then [] else EscapeChar(s[0]) + Escape(s[1..])
  }

  function HexValue(c: char): (r: Option<nat>)
    ensures r.Some? ==> r.value < 16
  {
    if '0' <= c <= '9' then Some(c as int - '0' as int)
    else if 'a' <= c <= 'f' then Some(c as int - 'a' as int + 10)
    else if 'A' <= c <= 'F' then Some(c as int - 'A' as int + 10)
    else None
  }

  /** The value of four hexadecimal digits, if they are four hexadecimal digits. */
  function Hex4(t: string): (r: Option<nat>)
    requires |t| == 4
    ensures r.Some? ==> r.value < 0x1_0000
  {
    match (HexValue(t[0]), HexValue(t[1]), HexValue(t[2]), HexValue(t[3]))
    case (Some(a), Some(b), Some(c), Some(d)) => Some(((a * 16 + b) * 16 + c) * 16 + d)
    case _ => None
  }

  /** The character a two-character escape `\x` stands for, when `x` names one. */
  function SimpleEscape(x: char): Option<char>
  {
    if x == '"' then Some('"') else if x == '\\' then Some('\\') else if x == '/' then Some('/')
    else if x == 'b' then Some(8 as char) else if x == 'f' then Some(12 as char)
    else if x == 'n' then Some('\n') else if x == 'r' then Some('\r')
    else if x == 't' then Some('\t') else None
  }

  /** Reads the body of a JSON string literal back into the string it denotes, following the
      escapes of section 7 of RFC 8259 (a `\u` escape of a lone surrogate is refused); `None` when
      the body is not well formed: an unescaped quote or control character, or a bad escape. */
  function Unescape(t: string): Option<string>
  {
    if t == [] then Some([])
    else if t[0] == '"' || t[0] < ' ' then None
    else if t[0] != '\\' then Prepend(t[0], Unescape(t[1..]))
    else if |t| < 2 then None
    else if SimpleEscape(t[1]).Some? then Prepend(SimpleEscape(t[1]).value, Unescape(t[2..]))
    else if t[1] != 'u' || |t| < 6 then None
    else match UnicodeEscape(t[2..6])
      case None => None
      case Some(c) => Prepend(c, Unescape(t[6..]))
  }

  /** The character of a `\u` escape with hexadecimal digits `h`, unless it is not four
      hexadecimal digits or names a surrogate. */
  function UnicodeEscape(h: string): Option<char>
    requires |h| == 4
  {
    match Hex4(h)
    case None => None
    case Some(v) => if 0xD800 <= v < 0xE000 then None else Some(v as char)
  }

  /** A character in front of a decoded string, or no string. */
  function Prepend(c: char, rest: Option<string>): Option<string>
  {
    match rest case None => None case Some(r) => Some([c] + r)
  }

  /** Decoding an escaped string gives the string back. */
  lemma {:induction false} UnescapeEscape(s: string)
    ensures Unescape(Escape(s)) == Some(s)
  {
    if s != [] {
      UnescapeEscape(s[1..]);
      assert Escape(s) == EscapeChar(s[0]) + Escape(s[1..]);
      UnescapeChar(s[0], Escape(s[1..]), s[1..]);
      assert s == [s[0]] + s[1..];
    }
  }

  /** Decoding one escaped character followed by decodable text. */
  lemma UnescapeChar(c: char, rest: string, r: string)
    requires Unescape(rest) == Some(r)
    ensures Unescape(EscapeChar(c) + rest) == Some([c] + r)
  {
    if c == '"' || c == '\\' {
      UnescapeQuoted(c, rest, r);
    } else if c < ' ' {
      UnescapeControl(c, rest, r);
    } else {
      var t := [c] + rest;
      assert t[1..] == rest;
    }
  }

  lemma UnescapeQuoted(c: char, rest: string, r: string)
    requires c == '"' || c == '\\'
    requires Unescape(rest) == Some(r)
    ensures Unescape(EscapeChar(c) + rest) == Some([c] + r)
  {
    var t := EscapeChar(c) + rest;
    assert t[0] == '\\' && t[1] == c && t[2..] == rest;
    assert SimpleEscape(c) == Some(c);
  }

  lemma UnescapeControl(c: char, rest: string, r: string)
    requires c < ' '
    requires Unescape(rest) == Some(r)
    ensures Unescape(EscapeChar(c) + rest) == Some([c] + r)
  {
    var t := EscapeChar(c) + rest;
    assert t[0] == '\\' && t[1] == 'u' && SimpleEscape(t[1]) == None;
    assert t[2..6] == "00" + [HexDigit(c as int / 16), HexDigit(c as int % 16)];
    assert t[6..] == rest;
    HexDigitValue(c as int / 16);
    HexDigitValue(c as int % 16);
    assert Hex4(t[2..6]) == Some(c as int);
  }

  /** Escaping changes a string exactly when the string holds a character that must be escaped;
      it never makes it shorter. */
  lemma {:induction false} EscapeLength(s: string)
    ensures |Escape(s)| >= |s|
    ensures Escape(s) == s <==> Plain(s)
    ensures |Escape(s)| == |s| <==> Plain(s)
  {
    if s != [] {
      EscapeLength(s[1..]);
      assert Plain(s) <==> !NeedsEscape(s[0]) && Plain(s[1..]) by {
        assert forall i :: 1 <= i < |s| ==> s[1..][i - 1] == s[i];
      }
      if Escape(s) == s {
        assert EscapeChar(s[0]) == Escape(s)[..|EscapeChar(s[0])|];
      }
    }
  }

  /** The quoted form of a string, escaped or copied verbatim. */
  function Quote(s: string, escape: bool): string
  {
    "\"" + (if escape then Escape(s) else s) + "\""
  }

  /** The text of a value; `escape` says whether string contents are escaped. */
  function Write(v: Json, escape: bool): string
    decreases v, 1
  {
    match v
    case JBool(b) => if b then "true" else "false"
    case JInt(i) => DecimalText(i)
    case JNumber(token) => token
    case JString(s) => Quote(s, escape)
    case JObject(members) => "{" + WriteMembers(members, escape) + "}"
  }

  /** The members of an object, separated by commas, each as `"key":value`. */
  function WriteMembers(members: seq<Member>, escape: bool): string
    decreases members, 0
  {
    if members == [] then []
    else
      var m := Quote(members[0].key, escape) + ":" + Write(members[0].value, escape);
      if |members| == 1 then m else m + "," + WriteMembers(members[1..], escape)
  }

  /** The RFC 8259 text of a value. */
  function Serialize(v: Json): string
  {
    Write(v, true)
  }

  /** Every key and every string value of `v` can be written without escaping. */
  predicate PlainStrings(v: Json)
    decreases v, 1
  {
    match v
    case JString(s) => Plain(s)
    case JObject(members) => PlainMembers(members)
    case _ => true
  }

  predicate PlainMembers(members: seq<Member>)
    decreases members, 0
  {
    members != [] ==>
      Plain(members[0].key) && PlainStrings(members[0].value) && PlainMembers(members[1..])
  }

  /** Members can be written verbatim exactly when every key and every value can. */
  lemma {:induction false} PlainMembersAll(members: seq<Member>)
    ensures PlainMembers(members) <==>
              forall i :: 0 <= i < |members| ==> Plain(members[i].key) && PlainStrings(members[i].value)
  {
    if members != [] {
      PlainMembersAll(members[1..]);
      assert forall i :: 1 <= i < |members| ==> members[1..][i - 1] == members[i];
    }
  }

  /** The members of a concatenation can be written verbatim exactly when both parts can. */
  lemma {:induction false} PlainMembersConcat(a: seq<Member>, b: seq<Member>)
    ensures PlainMembers(a + b) <==> PlainMembers(a) && PlainMembers(b)
  {
    if a != [] {
      assert (a + b)[0] == a[0];
      assert (a + b)[1..] == a[1..] + b;
      PlainMembersConcat(a[1..], b);
    } else {
      assert a + b == b;
    }
  }

  /** The verbatim text is never longer than the RFC 8259 text, and equally long -- and then equal --
      exactly when no key or string needs escaping. */
  lemma {:induction false} WriteVerbatim(v: Json)
    ensures |Write(v, false)| <= |Write(v, true)|
    ensures |Write(v, false)| == |Write(v, true)| <==> PlainStrings(v)
    ensures PlainStrings(v) ==> Write(v, false) == Serialize(v)
    decreases v, 1
  {
    match v
    case JString(s) => EscapeLength(s);
    case JObject(members) => WriteMembersVerbatim(members);
    case _ =>
  }

  lemma {:induction false} WriteMembersVerbatim(members: seq<Member>)
    ensures |WriteMembers(members, false)| <= |WriteMembers(members, true)|
    ensures |WriteMembers(members, false)| == |WriteMembers(members, true)| <==> PlainMembers(members)
    ensures PlainMembers(members) ==> WriteMembers(members, false) == WriteMembers(members, true)
    decreases members, 0
  {
    if members != [] {
      EscapeLength(members[0].key);
      WriteVerbatim(members[0].value);
      WriteMembersVerbatim(members[1..]);
    }
  }

  /** Two equally long texts: the verbatim text is the RFC 8259 text exactly when no string needs escaping. */
  lemma VerbatimIsJsonIff(v: Json)
    ensures Write(v, false) == Serialize(v) <==> PlainStrings(v)
  {
    WriteVerbatim(v);
  }

  /** The keys of an object's members, in order. */
  function Keys(members: seq<Member>): (r: seq<string>)
    ensures |r| == |members|
    ensures forall i :: 0 <= i < |members| ==> r[i] == members[i].key
  {
    if members == [] then [] else [members[0].key] + Keys(members[1..])
  }

  /** The keys of a concatenation are the keys of its parts. */
  lemma KeysConcat(a: seq<Member>, b: seq<Member>)
    ensures Keys(a + b) == Keys(a) + Keys(b)
  {
  }

  /** A run of decimal digits of length at least one and nothing else. */
  predicate DigitRun(t: string)
  {
    |t| >= 1 && forall i :: 0 <= i < |t| ==> IsDigit(t[i])
  }

  /** The number of decimal digits at the start of `t`. */
  function LeadingDigits(t: string): (n: nat)
    ensures n <= |t|
    ensures forall i :: 0 <= i < n ==> IsDigit(t[i])
    ensures n < |t| ==> !IsDigit(t[n])
  {
    if t != [] && IsDigit(t[0]) then 1 + LeadingDigits(t[1..]) else 0
  }

  /** `exp = e [ minus / plus ] 1*DIGIT`, or nothing. */
  predicate ExponentPart(t: string)
  {
    t == [] ||
    ((t[0] == 'e' || t[0] == 'E') &&
     var r := if |t| > 1 && (t[1] == '+' || t[1] == '-') then t[2..] else t[1..];
     DigitRun(r))
  }

  /** `[ frac ] [ exp ]` with `frac = "." 1*DIGIT`. */
  predicate FractionAndExponent(t: string)
  {
    if t != [] && t[0] == '.' then
      var n := LeadingDigits(t[1..]);
      n >= 1 && ExponentPart(t[1 + n..])
    else ExponentPart(t)
  }

  /** A number token of section 6 of RFC 8259: `[ minus ] int [ frac ] [ exp ]`, where `int` is
      `0` or a digit string without a leading zero. */
  predicate NumberToken(t: string)
  {
    var u := if t != [] && t[0] == '-' then t[1..] else t;
    var n := LeadingDigits(u);
    n >= 1 && (u[0] == '0' ==> n == 1) && FractionAndExponent(u[n..])
  }

  /** Integers are written as RFC 8259 number tokens. */
  lemma DecimalIsNumber(i: int)
    ensures NumberToken(DecimalText(i))
  {
    var t := DecimalText(i);
    var u := if i < 0 then Digits(-i) else Digits(i);
    assert t != [] && t[0] == '-' <==> i < 0;
    assert (if t != [] && t[0] == '-' then t[1..] else t) == u;
    AllDigits(u);
  }

  lemma {:induction false} AllDigits(u: string)
    requires forall i :: 0 <= i < |u| ==> IsDigit(u[i])
    ensures LeadingDigits(u) == |u|
  {
    if u != [] {
      AllDigits(u[1..]);
    }
  }

  /** Every number token in `v` is a number token of RFC 8259, so `Serialize(v)` follows its grammar. */
  predicate WellFormed(v: Json)
    decreases v, 1
  {
    match v
    case JNumber(token) => NumberToken(token)
    case JObject(members) => WellFormedMembers(members)
    case _ => true
  }

  predicate WellFormedMembers(members: seq<Member>)
    decreases members, 0
  {
    members != [] ==> WellFormed(members[0].value) && WellFormedMembers(members[1..])
  }

  /** The members of a concatenation are well formed exactly when both parts are. */
  lemma {:induction false} WellFormedMembersConcat(a: seq<Member>, b: seq<Member>)
    ensures WellFormedMembers(a + b) <==> WellFormedMembers(a) && WellFormedMembers(b)
  {
    if a != [] {
      assert (a + b)[0] == a[0];
      assert (a + b)[1..] == a[1..] + b;
      WellFormedMembersConcat(a[1..], b);
    } else {
      assert a + b == b;
    }
  }

  /** Members are well formed exactly when every value is. */
  lemma {:induction false} WellFormedMembersAll(members: seq<Member>)
    ensures WellFormedMembers(members) <==> forall i :: 0 <= i < |members| ==> WellFormed(members[i].value)
  {
    if members != [] {
      WellFormedMembersAll(members[1..]);
      assert forall i :: 1 <= i < |members| ==> members[1..][i - 1] == members[i];
    }
  }
}
