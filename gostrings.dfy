/** The parts of Go's strings and unicode packages that the storage-routing
    layer relies on, over strings as sequences of Unicode scalar values. */
module GoStrings {

  /** unicode.IsSpace: the Latin-1 spaces plus the Unicode White_Space runes. */
  predicate IsSpace(c: char)
  {
    c == '\t' || c == '\n' || c == '\U{000B}' || c == '\U{000C}' || c == '\r' || c == ' '
    || c == '\U{0085}' || c == '\U{00A0}' || c == '\U{1680}'
    || ('\U{2000}' <= c <= '\U{200A}')
    || c == '\U{2028}' || c == '\U{2029}' || c == '\U{202F}' || c == '\U{205F}' || c == '\U{3000}'
  }

  function TrimLeftSpace(s: string): (r: string)
    ensures |r| <= |s|
  {
    if s != [] && IsSpace(s[0]) then TrimLeftSpace(s[1..]) else s
  }

  function TrimRightSpace(s: string): (r: string)
    ensures |r| <= |s|
  {
    if s != [] && IsSpace(s[|s| - 1]) then TrimRightSpace(s[..|s| - 1]) else s
  }

  /** strings.TrimSpace */
  function TrimSpace(s: string): (r: string)
    ensures |r| <= |s|
  {
    TrimRightSpace(TrimLeftSpace(s))
  }

  /** A text with no space at either end: what TrimSpace returns. */
  predicate IsTrimmed(s: string)
  {
    s == [] || (!IsSpace(s[0]) && !IsSpace(s[|s| - 1]))
  }

  lemma {:induction false} TrimLeftSpaceShape(s: string)
    ensures TrimLeftSpace(s) == s[|s| - |TrimLeftSpace(s)|..]
    ensures TrimLeftSpace(s) == [] || !IsSpace(TrimLeftSpace(s)[0])
  {
    if s != [] && IsSpace(s[0]) {
      TrimLeftSpaceShape(s[1..]);
    }
  }

  lemma {:induction false} TrimRightSpaceShape(s: string)
    ensures TrimRightSpace(s) == s[..|TrimRightSpace(s)|]
    ensures TrimRightSpace(s) == [] || !IsSpace(TrimRightSpace(s)[|TrimRightSpace(s)| - 1])
  {
    if s != [] && IsSpace(s[|s| - 1]) {
      TrimRightSpaceShape(s[..|s| - 1]);
    }
  }

  /** The trimmed text neither begins nor ends with a space. */
  lemma TrimSpaceEnds(s: string)
    ensures IsTrimmed(TrimSpace(s))
  {
    var l := TrimLeftSpace(s);
    TrimLeftSpaceShape(s);
    TrimRightSpaceShape(l);
    var r := TrimRightSpace(l);
    if r != [] {
      assert r[0] == l[0];
    }
  }

  predicate IsBlank(s: string)
  {
    TrimSpace(s) == []
  }

  /** A string that does not begin or end with a space is its own trim. */
  lemma TrimSpaceOfTrimmed(s: string)
    requires IsTrimmed(s)
    ensures TrimSpace(s) == s
  {
  }

  lemma TrimSpaceIdempotent(s: string)
    ensures TrimSpace(TrimSpace(s)) == TrimSpace(s)
  {
    TrimSpaceEnds(s);
    TrimSpaceOfTrimmed(TrimSpace(s));
  }

  /** The trimmed text is a contiguous piece of the input. */
  lemma TrimSpaceIsInfix(s: string)
    ensures exists i, j :: 0 <= i <= j <= |s| && TrimSpace(s) == s[i..j]
  {
    var l := TrimLeftSpace(s);
    var r := TrimRightSpace(l);
    TrimLeftSpaceShape(s);
    TrimRightSpaceShape(l);
    var i := |s| - |l|;
    assert r == s[i..i + |r|];
  }

  /** A character of the trimmed text is a character of the input. */
  lemma TrimSpaceChars(s: string, c: char)
    requires c in TrimSpace(s)
    ensures c in s
  {
    TrimSpaceIsInfix(s);
    var i, j :| 0 <= i <= j <= |s| && TrimSpace(s) == s[i..j];
    var k :| 0 <= k < |s[i..j]| && s[i..j][k] == c;
    assert s[i + k] == c;
  }

  /** unicode.ToLower on one rune: exact for ASCII and for the two non-ASCII
      runes whose lower case is ASCII (KELVIN SIGN and LATIN CAPITAL LETTER I
      WITH DOT ABOVE); other runes are kept. */
  function LowerRune(c: char): char
  {
    if 'A' <= c <= 'Z' then (c as int + 32) as char
    else if c == '\U{212A}' then 'k'
    else if c == '\U{0130}' then 'i'
    else c
  }

  /** strings.ToLower */
  function ToLower(s: string): (r: string)
    ensures |r| == |s|
    ensures forall i :: 0 <= i < |s| ==> r[i] == LowerRune(s[i])
  {
    if s == [] then [] else [LowerRune(s[0])] + ToLower(s[1..])
  }

  /** Lower-casing twice is lower-casing once. */
  lemma ToLowerIdempotent(s: string)
    ensures ToLower(ToLower(s)) == ToLower(s)
  {
  }

  /** Text without upper-case letters is its own lower case. */
  lemma LowerOfLower(s: string)
    requires forall i :: 0 <= i < |s| ==> LowerRune(s[i]) == s[i]
    ensures ToLower(s) == s
  {
  }

  /** strings.ToLower(strings.TrimSpace(s)): how labels and keywords are
      compared throughout the layer. */
  function LowerTrim(s: string): string
  {
    ToLower(TrimSpace(s))
  }

  /** A trimmed text without upper-case letters is its own key. */
  lemma LowerTrimOfKey(s: string)
    requires IsTrimmed(s)
    requires forall i :: 0 <= i < |s| ==> LowerRune(s[i]) == s[i]
    ensures LowerTrim(s) == s
  {
    TrimSpaceOfTrimmed(s);
    LowerOfLower(s);
  }

  predicate HasPrefix(s: string, p: string)
  {
    |p| <= |s| && s[..|p|] == p
  }

  predicate HasSuffix(s: string, p: string)
  {
    |p| <= |s| && s[|s| - |p|..] == p
  }

  /** strings.Contains */
  predicate Contains(s: string, p: string)
  {
    HasPrefix(s, p) || (s != [] && Contains(s[1..], p))
  }

  /** An occurrence is at most as long as the text it occurs in. */
  lemma {:induction false} ContainsLength(s: string, p: string)
    requires Contains(s, p)
    ensures |p| <= |s|
  {
    if !HasPrefix(s, p) {
      ContainsLength(s[1..], p);
    }
  }

  /** Trimming leading space keeps an occurrence that does not start with
      a space. */
  lemma {:induction false} ContainsTrimLeft(s: string, p: string)
    requires Contains(s, p) && p != [] && !IsSpace(p[0])
    ensures Contains(TrimLeftSpace(s), p)
  {
    if s != [] && IsSpace(s[0]) {
      ContainsTrimLeft(s[1..], p);
    }
  }

  /** Dropping a trailing space keeps an occurrence that does not end with
      a space. */
  lemma {:induction false} ContainsDropLast(s: string, p: string)
    requires Contains(s, p) && p != [] && !IsSpace(p[|p| - 1])
    requires s != [] && IsSpace(s[|s| - 1])
    ensures Contains(s[..|s| - 1], p)
  {
    var d := s[..|s| - 1];
    if HasPrefix(s, p) {
      assert s[|p| - 1] == p[|p| - 1];
      assert d[..|p|] == p;
    } else {
      var t := s[1..];
      ContainsLength(t, p);
      ContainsDropLast(t, p);
      assert t[..|t| - 1] == d[1..];
    }
  }

  lemma {:induction false} ContainsTrimRight(s: string, p: string)
    requires Contains(s, p) && p != [] && !IsSpace(p[|p| - 1])
    ensures Contains(TrimRightSpace(s), p)
  {
    if s != [] && IsSpace(s[|s| - 1]) {
      ContainsDropLast(s, p);
      ContainsTrimRight(s[..|s| - 1], p);
    }
  }

  /** TrimSpace keeps every occurrence of a trimmed, non-empty text. */
  lemma ContainsTrimSpace(s: string, p: string)
    requires Contains(s, p) && p != [] && IsTrimmed(p)
    ensures Contains(TrimSpace(s), p)
  {
    ContainsTrimLeft(s, p);
    ContainsTrimRight(TrimLeftSpace(s), p);
  }

  /** Lower-casing neither makes nor removes a space. */
  lemma LowerRuneSpace(c: char)
    ensures IsSpace(LowerRune(c)) == IsSpace(c)
  {
  }

  lemma {:induction false} TrimLeftLower(s: string)
    ensures TrimLeftSpace(ToLower(s)) == ToLower(TrimLeftSpace(s))
  {
    if s != [] {
      var l := ToLower(s);
      assert l[0] == LowerRune(s[0]) && l[1..] == ToLower(s[1..]);
      LowerRuneSpace(s[0]);
      if IsSpace(s[0]) {
        TrimLeftLower(s[1..]);
      }
    }
  }

  lemma {:induction false} TrimRightLower(s: string)
    ensures TrimRightSpace(ToLower(s)) == ToLower(TrimRightSpace(s))
  {
    if s != [] {
      var d := s[..|s| - 1];
      var l := ToLower(s);
      LowerPrefix(s, d);
      assert l[|s| - 1] == LowerRune(s[|s| - 1]);
      LowerRuneSpace(s[|s| - 1]);
      if IsSpace(s[|s| - 1]) {
        TrimRightLower(d);
      }
    }
  }

  lemma LowerPrefix(s: string, d: string)
    requires s != [] && d == s[..|s| - 1]
    ensures ToLower(s)[..|s| - 1] == ToLower(d)
  {
  }

  /** Trimming and lower-casing commute. */
  lemma TrimSpaceLower(s: string)
    ensures TrimSpace(ToLower(s)) == ToLower(TrimSpace(s))
  {
    TrimLeftLower(s);
    TrimRightLower(TrimLeftSpace(s));
  }

  /** An occurrence in the lower-cased text is one in its lower-cased,
      trimmed form, for a trimmed non-empty pattern. */
  lemma ContainsLowerTrim(s: string, p: string)
    requires Contains(ToLower(s), p) && p != [] && IsTrimmed(p)
    ensures Contains(LowerTrim(s), p)
  {
    ContainsTrimSpace(ToLower(s), p);
    TrimSpaceLower(s);
  }

  /** Lower-casing before the trim and lower case changes nothing. */
  lemma LowerTrimOfLower(s: string)
    ensures LowerTrim(ToLower(s)) == LowerTrim(s)
  {
    TrimSpaceLower(s);
    ToLowerIdempotent(TrimSpace(s));
  }

  /** strings.TrimSuffix */
  function TrimSuffix(s: string, suffix: string): (r: string)
    ensures HasSuffix(s, suffix) ==> r + suffix == s
    ensures !HasSuffix(s, suffix) ==> r == s
  {
    if HasSuffix(s, suffix) then s[..|s| - |suffix|] else s
  }

  /** strings.ReplaceAll(s, "\\", "/") */
  function BackslashToSlash(s: string): (r: string)
    ensures |r| == |s|
    ensures forall i :: 0 <= i < |s| ==> r[i] == (if s[i] == '\\' then '/' else s[i])
  {
    if s == [] then [] else [if s[0] == '\\' then '/' else s[0]] + BackslashToSlash(s[1..])
  }

  function TrimLeftSet(s: string, cut: set<char>): (r: string)
    ensures |r| <= |s| && r == s[|s| - |r|..]
    ensures r == [] || r[0] !in cut
  {
    if s != [] && s[0] in cut then TrimLeftSet(s[1..], cut) else s
  }

  function TrimRightSet(s: string, cut: set<char>): (r: string)
    ensures |r| <= |s| && r == s[..|r|]
    ensures r == [] || r[|r| - 1] !in cut
  {
    if s != [] && s[|s| - 1] in cut then TrimRightSet(s[..|s| - 1], cut) else s
  }

  /** strings.Trim(s, cutset) */
  function TrimSet(s: string, cut: set<char>): (r: string)
    ensures |r| <= |s|
    ensures r == [] || (r[0] !in cut && r[|r| - 1] !in cut)
    ensures forall c :: c in r ==> c in s
  {
    var l := TrimLeftSet(s, cut);
    var r := TrimRightSet(l, cut);
    InnerSliceChars(s, l, r);
    r
  }

  /** A prefix of a suffix of s holds only characters of s. */
  lemma InnerSliceChars(s: string, l: string, r: string)
    requires |l| <= |s| && l == s[|s| - |l|..]
    requires |r| <= |l| && r == l[..|r|]
    ensures forall c :: c in r ==> c in s
  {
    forall c | c in r
      ensures c in s
    {
      var i :| 0 <= i < |r| && r[i] == c;
      assert s[|s| - |l| + i] == c;
    }
  }

  /** Go's < on strings, the order sort.Strings puts keys in: byte order
      of the UTF-8 text, which is the order of the code points. */
  predicate Below(a: string, b: string)
  {
    if b == [] then false
    else if a == [] then true
    else if a[0] != b[0] then a[0] < b[0]
    else Below(a[1..], b[1..])
  }

  lemma {:induction false} BelowIrreflexive(a: string)
    ensures !Below(a, a)
  {
    if a != [] {
      BelowIrreflexive(a[1..]);
    }
  }

  lemma {:induction false} BelowTransitive(a: string, b: string, c: string)
    requires Below(a, b) && Below(b, c)
    ensures Below(a, c)
  {
    if a != [] && a[0] == b[0] && b[0] == c[0] {
      BelowTransitive(a[1..], b[1..], c[1..]);
    }
  }

  lemma {:induction false} BelowTotal(a: string, b: string)
    requires a != b
    ensures Below(a, b) || Below(b, a)
  {
    if a != [] && b != [] && a[0] == b[0] {
      assert a == [a[0]] + a[1..] && b == [b[0]] + b[1..];
      BelowTotal(a[1..], b[1..]);
    }
  }
}
