/** The subset of RFC 8259 that the location-set column uses: an array of
    strings (section 5) whose members are strings (section 7) or null, and a
    single string.  Encoding follows Go's json.Marshal for a []string: HTML
    characters and U+2028/U+2029 escaped, control characters escaped, the
    rest written as is.  Decoding follows json.Unmarshal into a []string and
    into a string, with `null` accepted by both. */
module Json {
  import opened Wrappers

  predicate IsWs(c: char)
  {
    c == ' ' || c == '\t' || c == '\n' || c == '\r'
  }

  function SkipWs(s: seq<char>): (r: seq<char>)
    ensures |r| <= |s| && r == s[|s| - |r|..]
    ensures r == [] || !IsWs(r[0])
  {
    if s != [] && IsWs(s[0]) then SkipWs(s[1..]) else s
  }

  // ---------------------------------------------------------------- encoding

  const HexDigits: string := "0123456789abcdef"

  /** The escape Go writes for one rune of a string. */
  function EscapeRune(c: char): string
  {
    if c == '"' then "\\\""
    else if c == '\\' then "\\\\"
    else if c == '\U{0008}' then "\\b"
    else if c == '\U{000C}' then "\\f"
    else if c == '\n' then "\\n"
    else if c == '\r' then "\\r"
    else if c == '\t' then "\\t"
    else if c < ' ' then "\\u00" + [HexDigits[c as int / 16], HexDigits[c as int % 16]]
    else if c == '<' then "\\u003c"
    else if c == '>' then "\\u003e"
    else if c == '&' then "\\u0026"
    else if c == '\U{2028}' then "\\u2028"
    else if c == '\U{2029}' then "\\u2029"
    else [c]
  }

  function EscapeString(s: string): string
  {
    if s == [] then "" else EscapeRune(s[0]) + EscapeString(s[1..])
  }

  /** A JSON string literal. */
  function Quote(s: string): string
  {
    "\"" + EscapeString(s) + "\""
  }

  function EncodeItems(xs: seq<string>): string
  {
    if xs == [] then ""
    else if |xs| == 1 then Quote(xs[0])
    else Quote(xs[0]) + "," + EncodeItems(xs[1..])
  }

  /** json.Marshal of a non-nil []string. */
  function EncodeArray(xs: seq<string>): (r: string)
    ensures |r| >= 2 && r[0] == '[' && r[|r| - 1] == ']'
  {
    "[" + EncodeItems(xs) + "]"
  }

  // ---------------------------------------------------------------- decoding

  function HexValue(c: char): (v: int)
    ensures -1 <= v < 16
  {
    if '0' <= c <= '9' then c as int - '0' as int
    else if 'a' <= c <= 'f' then c as int - 'a' as int + 10
    else if 'A' <= c <= 'F' then c as int - 'A' as int + 10
    else -1
  }

  /** The value of four hex digits, or -1. */
  function Hex4(s: seq<char>): (v: int)
    requires |s| >= 4
    ensures -1 <= v < 0x10000
  {
    var a, b, c, d := HexValue(s[0]), HexValue(s[1]), HexValue(s[2]), HexValue(s[3]);
    if a < 0 || b < 0 || c < 0 || d < 0 then -1
    else
      assert 0 <= a * 16 + b < 0x100;
      assert 0 <= (a * 16 + b) * 16 + c < 0x1000;
      ((a * 16 + b) * 16 + c) * 16 + d
  }

  predicate IsSurrogate(v: int) { 0xD800 <= v < 0xE000 }

  /** A \u escape at the head of s followed by another one, combined into a
      supplementary rune when they form a surrogate pair (utf16.DecodeRune). */
  function PairedRune(v: int, s: seq<char>): (r: Option<char>)
    requires 0xD800 <= v < 0xE000
    ensures r.Some? ==> |s| >= 6
  {
    if v < 0xDC00 && |s| >= 6 && s[0] == '\\' && s[1] == 'u' then
      var w := Hex4(s[2..6]);
      if 0xDC00 <= w < 0xE000 then Some(((v - 0xD800) * 0x400 + (w - 0xDC00) + 0x10000) as char)
      else None
    else None
  }

  /** The rune a two-character escape stands for. */
  function SimpleEscape(e: char): char
  {
    if e == 'b' then '\U{0008}' else if e == 'f' then '\U{000C}' else if e == 'n' then '\n'
    else if e == 'r' then '\r' else if e == 't' then '\t' else e
  }

  /** Puts a decoded rune in front of the rest of a decoded body. */
  function Cons(c: char, o: Option<(string, seq<char>)>): (r: Option<(string, seq<char>)>)
    ensures r.Some? == o.Some? && (o.Some? ==> r.value.1 == o.value.1)
  {
    match o
    case Some((t, rest)) => Some(([c] + t, rest))
    case None => None
  }

  /** The body of a string literal after its opening quote: the decoded text
      and what follows the closing quote.  Raw control characters, unknown
      escapes and a missing closing quote are syntax errors; a \u escape of a
      surrogate that is not the first half of a pair becomes U+FFFD. */
  function StringBody(s: seq<char>): (r: Option<(string, seq<char>)>)
    ensures r.Some? ==> |r.value.1| < |s|
    decreases |s|
  {
    if s == [] then None
    else if s[0] == '"' then Some(("", s[1..]))
    else if s[0] < ' ' then None
    else if s[0] != '\\' then Cons(s[0], StringBody(s[1..]))
    else if |s| < 2 then None
    else if s[1] == 'u' then
      if |s| < 6 || Hex4(s[2..6]) < 0 then None
      else
        var v := Hex4(s[2..6]);
        if !IsSurrogate(v) then Cons(v as char, StringBody(s[6..]))
        else
          match PairedRune(v, s[6..])
          case Some(c) => Cons(c, StringBody(s[12..]))
          case None => Cons('\U{FFFD}', StringBody(s[6..]))
    else if s[1] in "\"\\/bfnrt" then Cons(SimpleEscape(s[1]), StringBody(s[2..]))
    else None
  }

  predicate StartsNull(s: seq<char>)
  {
    |s| >= 4 && s[..4] == "null"
  }

  /** One member of a []string: a string, or null (which leaves "" behind). */
  function Member(s: seq<char>): (r: Option<(string, seq<char>)>)
    ensures r.Some? ==> |r.value.1| < |s|
  {
    if s != [] && s[0] == '"' then StringBody(s[1..])
    else if StartsNull(s) then Some(("", s[4..]))
    else None
  }

  /** The members of an array after '[' and up to and including ']'. */
  function Members(s: seq<char>): Option<(seq<string>, seq<char>)>
    decreases |s|
  {
    match Member(s)
    case None => None
    case Some((x, after)) =>
      var t := SkipWs(after);
      if t != [] && t[0] == ']' then Some(([x], t[1..]))
      else if t != [] && t[0] == ',' then
        match Members(SkipWs(t[1..]))
        case Some((ys, rest)) => Some(([x] + ys, rest))
        case None => None
      else None
  }

  /** json.Unmarshal(text, &[]string): `null` and `[...]` succeed. */
  function DecodeStringArray(text: string): Option<seq<string>>
  {
    var t := SkipWs(text);
    if StartsNull(t) then
      if SkipWs(t[4..]) == [] then Some([]) else None
    else if t != [] && t[0] == '[' then
      var u := SkipWs(t[1..]);
      if u != [] && u[0] == ']' then
        if SkipWs(u[1..]) == [] then Some([]) else None
      else
        match Members(u)
        case Some((xs, rest)) => if SkipWs(rest) == [] then Some(xs) else None
        case None => None
    else None
  }

  /** json.Unmarshal(text, &string): a string literal, or `null` (which
      leaves the empty string behind). */
  function DecodeString(text: string): Option<string>
  {
    var t := SkipWs(text);
    if StartsNull(t) then
      if SkipWs(t[4..]) == [] then Some("") else None
    else if t != [] && t[0] == '"' then
      match StringBody(t[1..])
      case Some((x, rest)) => if SkipWs(rest) == [] then Some(x) else None
      case None => None
    else None
  }

  // ---------------------------------------------------------------- round trip

  /** A two-character escape decodes to the rune it names. */
  lemma StringBodyTwo(e: char, t: seq<char>)
    requires e in "\"\\/bfnrt"
    ensures StringBody(['\\', e] + t) == Cons(SimpleEscape(e), StringBody(t))
  {
    var s := ['\\', e] + t;
    assert s[0] == '\\' && s[1] == e;
    assert s[2..] == t;
  }

  /** A \u escape of four hex digits outside the surrogate range decodes to
      the rune with that code. */
  lemma StringBodyU(d: seq<char>, t: seq<char>)
    requires |d| == 4 && Hex4(d) >= 0 && !IsSurrogate(Hex4(d))
    ensures StringBody(['\\', 'u'] + d + t) == Cons(Hex4(d) as char, StringBody(t))
  {
    var s := ['\\', 'u'] + d + t;
    assert s[0] == '\\' && s[1] == 'u';
    assert s[2..6] == d;
    assert s[6..] == t;
  }

  /** Two lower-case hex digits after "00" read back as their byte. */
  lemma HexByte(hi: int, lo: int)
    requires 0 <= hi < 16 && 0 <= lo < 16
    ensures Hex4(['0', '0', HexDigits[hi], HexDigits[lo]]) == hi * 16 + lo
  {
    assert HexValue(HexDigits[hi]) == hi && HexValue(HexDigits[lo]) == lo;
  }

  lemma EscapeControlRoundTrip(c: char, t: seq<char>)
    requires c < ' ' && c !in "\U{0008}\U{000C}\n\r\t"
    ensures StringBody(EscapeRune(c) + t) == Cons(c, StringBody(t))
  {
    var hi, lo := c as int / 16, c as int % 16;
    var d := ['0', '0', HexDigits[hi], HexDigits[lo]];
    assert EscapeRune(c) == ['\\', 'u'] + d;
    HexByte(hi, lo);
    StringBodyU(d, t);
  }

  lemma EscapeSixRoundTrip(c: char, t: seq<char>)
    requires c in "<>&\U{2028}\U{2029}"
    ensures StringBody(EscapeRune(c) + t) == Cons(c, StringBody(t))
  {
    var d := EscapeRune(c)[2..];
    assert EscapeRune(c) == ['\\', 'u'] + d;
    assert Hex4(d) == c as int;
    StringBodyU(d, t);
  }

  lemma EscapeTwoRoundTrip(c: char, t: seq<char>)
    requires c in "\"\\\U{0008}\U{000C}\n\r\t"
    ensures StringBody(EscapeRune(c) + t) == Cons(c, StringBody(t))
  {
    var e := EscapeRune(c)[1];
    assert EscapeRune(c) == ['\\', e];
    assert e in "\"\\/bfnrt" && SimpleEscape(e) == c;
    StringBodyTwo(e, t);
  }

  /** One encoded rune decodes back to itself, whatever follows it. */
  lemma EscapeRuneRoundTrip(c: char, t: seq<char>)
    ensures StringBody(EscapeRune(c) + t) == Cons(c, StringBody(t))
  {
    if c < ' ' && c !in "\U{0008}\U{000C}\n\r\t" {
      EscapeControlRoundTrip(c, t);
    } else if c in "<>&\U{2028}\U{2029}" {
      EscapeSixRoundTrip(c, t);
    } else if c in "\"\\\U{0008}\U{000C}\n\r\t" {
      EscapeTwoRoundTrip(c, t);
    } else {
      assert EscapeRune(c) == [c];
      assert (EscapeRune(c) + t)[1..] == t;
    }
  }

  lemma HeadTail<T>(xs: seq<T>)
    requires xs != []
    ensures [xs[0]] + xs[1..] == xs
  {
  }

  lemma ConcatAssoc3(a: seq<char>, b: seq<char>, c: seq<char>)
    ensures a + b + c == a + (b + c)
  {
  }

  /** One more rune in front of a body that already round-trips. */
  lemma EscapeStringCons(c: char, y: string, rest: seq<char>)
    requires StringBody(EscapeString(y) + "\"" + rest) == Some((y, rest))
    ensures StringBody(EscapeString([c] + y) + "\"" + rest) == Some(([c] + y, rest))
  {
    var t := EscapeString(y) + "\"" + rest;
    DropHead(c, y);
    assert EscapeString([c] + y) == EscapeRune(c) + EscapeString(y);
    ConcatAssoc3(EscapeRune(c), EscapeString(y), "\"" + rest);
    EscapeRuneRoundTrip(c, t);
    assert Cons(c, Some((y, rest))) == Some(([c] + y, rest));
    assert EscapeString([c] + y) + "\"" + rest == EscapeRune(c) + t;
  }

  lemma {:induction false} EscapeStringRoundTrip(x: string, rest: seq<char>)
    ensures StringBody(EscapeString(x) + "\"" + rest) == Some((x, rest))
  {
    if x == [] {
      assert EscapeString(x) + "\"" + rest == ['"'] + rest;
      DropHead('"', rest);
    } else {
      EscapeStringRoundTrip(x[1..], rest);
      EscapeStringCons(x[0], x[1..], rest);
      HeadTail(x);
    }
  }

  lemma DropQuote(a: seq<char>, rest: seq<char>)
    ensures ("\"" + a + "\"" + rest)[0] == '"'
    ensures ("\"" + a + "\"" + rest)[1..] == a + "\"" + rest
  {
    assert "\"" + a + "\"" + rest == ['"'] + (a + "\"" + rest);
  }

  /** A quoted string decodes to itself, leaving what follows. */
  lemma QuoteRoundTrip(x: string, rest: seq<char>)
    ensures Member(Quote(x) + rest) == Some((x, rest))
  {
    DropQuote(EscapeString(x), rest);
    EscapeStringRoundTrip(x, rest);
  }

  lemma ItemsHead(xs: seq<string>)
    requires xs != []
    ensures |EncodeItems(xs)| > 0 && EncodeItems(xs)[0] == '"'
  {
  }

  lemma SkipWsStops(a: seq<char>)
    requires a != [] && !IsWs(a[0])
    ensures SkipWs(a) == a
  {
  }

  lemma DropHead(c: char, a: seq<char>)
    ensures ([c] + a)[0] == c && ([c] + a)[1..] == a
  {
  }

  lemma NotNull(a: seq<char>)
    requires a != [] && a[0] != 'n'
    ensures !StartsNull(a)
  {
    if |a| >= 4 {
      assert a[..4][0] == a[0];
    }
  }

  lemma MembersLast(s: seq<char>, x: string, rest: seq<char>)
    requires Member(s) == Some((x, "]" + rest))
    ensures Members(s) == Some(([x], rest))
  {
    DropHead(']', rest);
    SkipWsStops("]" + rest);
  }

  lemma MembersNext(s: seq<char>, x: string, tail: seq<char>, ys: seq<string>, rest: seq<char>)
    requires Member(s) == Some((x, "," + tail))
    requires tail != [] && tail[0] == '"'
    requires Members(tail) == Some((ys, rest))
    ensures Members(s) == Some(([x] + ys, rest))
  {
    DropHead(',', tail);
    SkipWsStops("," + tail);
    SkipWsStops(tail);
  }

  lemma ConcatAssoc(a: seq<char>, b: seq<char>, c: seq<char>, d: seq<char>, e: seq<char>)
    ensures a + b + c + d + e == a + (b + (c + d + e))
  {
  }

  lemma MembersRoundTripOne(x: string, rest: seq<char>)
    ensures Members(EncodeItems([x]) + "]" + rest) == Some(([x], rest))
  {
    var s := EncodeItems([x]) + "]" + rest;
    assert s == Quote(x) + ("]" + rest);
    QuoteRoundTrip(x, "]" + rest);
    MembersLast(s, x, rest);
  }

  /** The text of a list of two or more strings, split after its first
      member and the comma. */
  lemma EncodeItemsSplit(xs: seq<string>, rest: seq<char>)
    requires |xs| > 1
    ensures EncodeItems(xs) + "]" + rest == Quote(xs[0]) + ("," + (EncodeItems(xs[1..]) + "]" + rest))
  {
    assert EncodeItems(xs) == Quote(xs[0]) + "," + EncodeItems(xs[1..]);
    ConcatAssoc(Quote(xs[0]), ",", EncodeItems(xs[1..]), "]", rest);
  }

  /** A quoted string and a comma in front of members that decode. */
  lemma MembersCons(x: string, body: seq<char>, ys: seq<string>, rest: seq<char>)
    requires body != [] && body[0] == '"'
    requires Members(body) == Some((ys, rest))
    ensures Members(Quote(x) + ("," + body)) == Some(([x] + ys, rest))
  {
    QuoteRoundTrip(x, "," + body);
    MembersNext(Quote(x) + ("," + body), x, body, ys, rest);
  }

  /** One more string in front of a list that already round-trips. */
  lemma MembersRoundTripStep(xs: seq<string>, rest: seq<char>)
    requires |xs| > 1
    requires Members(EncodeItems(xs[1..]) + "]" + rest) == Some((xs[1..], rest))
    ensures Members(EncodeItems(xs) + "]" + rest) == Some((xs, rest))
  {
    var tail := EncodeItems(xs[1..]) + "]" + rest;
    ItemsHead(xs[1..]);
    MembersCons(xs[0], tail, xs[1..], rest);
    EncodeItemsSplit(xs, rest);
    HeadTail(xs);
  }

  lemma {:induction false} MembersRoundTrip(xs: seq<string>, rest: seq<char>)
    requires xs != []
    ensures Members(EncodeItems(xs) + "]" + rest) == Some((xs, rest))
    decreases |xs|
  {
    if |xs| == 1 {
      assert xs == [xs[0]];
      MembersRoundTripOne(xs[0], rest);
    } else {
      MembersRoundTrip(xs[1..], rest);
      MembersRoundTripStep(xs, rest);
    }
  }

  /** An array literal with at least one member decodes to its members. */
  lemma DecodeBracketed(text: string, xs: seq<string>)
    requires text != [] && text[0] == '['
    requires |text| > 1 && text[1] == '"'
    requires Members(text[1..]) == Some((xs, []))
    ensures DecodeStringArray(text) == Some(xs)
  {
    SkipWsStops(text);
    NotNull(text);
    SkipWsStops(text[1..]);
  }

  lemma DropBracket(a: seq<char>)
    ensures ("[" + a + "]")[1..] == a + "]" + []
  {
    assert ("[" + a + "]")[1..] == a + "]";
  }

  /** The text of a non-empty list, split after its opening bracket. */
  lemma EncodeArraySplit(xs: seq<string>)
    requires xs != []
    ensures |EncodeArray(xs)| > 1 && EncodeArray(xs)[1] == '"'
    ensures EncodeArray(xs)[1..] == EncodeItems(xs) + "]" + []
  {
    var items := EncodeItems(xs);
    ItemsHead(xs);
    DropBracket(items);
  }

  /** The empty list is written `[]` and read back as empty. */
  lemma EmptyArrayRoundTrip()
    ensures DecodeStringArray(EncodeArray([])) == Some([])
  {
    var text := EncodeArray([]);
    assert text == "[" + "]";
    DropHead('[', "]");
    SkipWsStops(text);
    NotNull(text);
    DropHead(']', []);
    SkipWsStops("]");
  }

  /** Decoding what was encoded gives the same list back. */
  lemma ArrayRoundTrip(xs: seq<string>)
    ensures DecodeStringArray(EncodeArray(xs)) == Some(xs)
  {
    if xs == [] {
      EmptyArrayRoundTrip();
    } else {
      EncodeArraySplit(xs);
      MembersRoundTrip(xs, []);
      DecodeBracketed(EncodeArray(xs), xs);
    }
  }

  lemma EmptyArray()
    ensures EncodeArray([]) == "[]"
  {
  }
}
