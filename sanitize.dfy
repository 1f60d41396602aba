/** sanitizeFileName (service/upload_service.go): the name part of a stored
    upload, reduced to letters, digits, '-', '_' and '.'. */
module Sanitize {
  import opened GoStrings

  /** The part of unicode.IsLetter this model covers: ASCII, the Latin-1
      letters and the CJK Unified Ideographs block (other scripts are not
      covered). */
  predicate IsLetter(c: char)
  {
    ('A' <= c <= 'Z') || ('a' <= c <= 'z')
    || c == '\U{00AA}' || c == '\U{00B5}' || c == '\U{00BA}'
    || ('\U{00C0}' <= c <= '\U{00FF}' && c != '\U{00D7}' && c != '\U{00F7}')
    || ('\U{4E00}' <= c <= '\U{9FFF}')
  }

  /** The part of unicode.IsDigit this model covers: the ASCII digits. */
  predicate IsDigit(c: char)
  {
    '0' <= c <= '9'
  }

  /** A rune that sanitizeFileName keeps. */
  predicate Allowed(c: char)
  {
    IsLetter(c) || IsDigit(c) || c == '-' || c == '_' || c == '.'
  }

  const Cut: set<char> := {'.', '_'}

  /** What the loop writes for one rune. */
  function Keep(c: char): char
  {
    if Allowed(c) then c else '_'
  }

  function KeepAll(s: string): (r: string)
    ensures |r| == |s|
  {
    seq(|s|, i requires 0 <= i < |s| => Keep(s[i]))
  }

  /** The sanitised name, as a value. */
  function Sanitized(name: string): (r: string)
    ensures r != []
  {
    var cleaned := TrimSet(KeepAll(TrimSpace(name)), Cut);
    if cleaned == "" then "file" else cleaned
  }

  /** The shape of a sanitised name. */
  predicate IsSanitized(s: string)
  {
    s != []
    && (forall i :: 0 <= i < |s| ==> Allowed(s[i]))
    && s[0] !in Cut && s[|s| - 1] !in Cut
  }

  /** sanitizeFileName: map every rune of the trimmed name, then strip '.'
      and '_' from both ends; nothing left gives "file". */
  method SanitizeFileName(name: string) returns (r: string)
    ensures r == Sanitized(name)
  {
    var t := TrimSpace(name);
    var b := "";
    var i := 0;
    while i < |t|
      invariant 0 <= i <= |t|
      invariant |b| == i
      invariant forall k :: 0 <= k < i ==> b[k] == Keep(t[k])
    {
      if Allowed(t[i]) {
        b := b + [t[i]];
      } else {
        b := b + ['_'];
      }
      i := i + 1;
    }
    assert b == KeepAll(t);
    var cleaned := TrimSet(b, Cut);
    if cleaned == "" {
      return "file";
    }
    return cleaned;
  }

  /** The output is never empty, holds only kept runes, and neither begins
      nor ends with '.' or '_'; blank input gives "file". */
  lemma SanitizedShape(name: string)
    ensures IsSanitized(Sanitized(name))
    ensures IsBlank(name) ==> Sanitized(name) == "file"
  {
    var m := KeepAll(TrimSpace(name));
    var cleaned := TrimSet(m, Cut);
    forall c | c in cleaned
      ensures Allowed(c)
    {
      var k :| 0 <= k < |m| && m[k] == c;
    }
  }

  /** A name that already has the sanitised shape is kept as it is. */
  lemma SanitizedOfSanitized(s: string)
    requires IsSanitized(s)
    ensures Sanitized(s) == s
  {
    TrimSpaceOfTrimmed(s);
    assert KeepAll(s) == s;
  }

  lemma SanitizedIdempotent(name: string)
    ensures Sanitized(Sanitized(name)) == Sanitized(name)
  {
    SanitizedShape(name);
    SanitizedOfSanitized(Sanitized(name));
  }

  /** No kept rune is a space. */
  lemma AllowedNotSpace(c: char)
    requires Allowed(c)
    ensures !IsSpace(c)
  {
  }

  /** A sanitised name has no surrounding space and no separator. */
  lemma SanitizedTrimmed(s: string)
    requires IsSanitized(s)
    ensures IsTrimmed(s) && TrimSpace(s) == s
    ensures '/' !in s
  {
    AllowedNotSpace(s[0]);
    AllowedNotSpace(s[|s| - 1]);
    TrimSpaceOfTrimmed(s);
  }
}
