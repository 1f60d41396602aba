/** The location set of a record (dao/common.go): the list of storage
    backends that hold an artifact, kept trimmed, without blanks and without
    duplicates in first-seen order, and persisted as JSON array text in the
    record's storage_server column. */
module LocationSet {
  import opened Wrappers
  import opened GoStrings
  import opened Json

  const ActionSet: string := "set"
  const ActionAdd: string := "add"
  const ActionRemove: string := "remove"

  /** A normalised list: every entry trimmed and non-blank, no entry twice. */
  predicate IsClean(xs: seq<string>)
  {
    (forall i :: 0 <= i < |xs| ==> xs[i] != "" && IsTrimmed(xs[i]))
    && (forall i, j :: 0 <= i < j < |xs| ==> xs[i] != xs[j])
  }

  /** normalizeStorageServers: trim every entry, skip blanks and entries seen
      before, keep the first occurrence of each in input order. */
  function Normalize(xs: seq<string>): (r: seq<string>)
    ensures IsClean(r)
  {
    if xs == [] then []
    else
      var p := Normalize(xs[..|xs| - 1]);
      var t := TrimSpace(xs[|xs| - 1]);
      TrimSpaceEnds(xs[|xs| - 1]);
      if t == "" || t in p then p else p + [t]
  }

  /** The loop of normalizeStorageServers, with its seen-set. */
  method NormalizeServers(servers: seq<string>) returns (result: seq<string>)
    ensures result == Normalize(servers)
  {
    var seen: set<string> := {};
    result := [];
    var i := 0;
    while i < |servers|
      invariant 0 <= i <= |servers|
      invariant result == Normalize(servers[..i])
      invariant seen == set x | x in result
    {
      assert servers[..i + 1][..i] == servers[..i];
      var value := TrimSpace(servers[i]);
      if value != "" && value !in seen {
        seen := seen + {value};
        result := result + [value];
      }
      i := i + 1;
    }
    assert servers[..i] == servers;
  }

  /** The input entries, each trimmed. */
  function Trims(xs: seq<string>): (r: seq<string>)
    ensures |r| == |xs| && forall i :: 0 <= i < |xs| ==> r[i] == TrimSpace(xs[i])
  {
    seq(|xs|, i requires 0 <= i < |xs| => TrimSpace(xs[i]))
  }

  /** An entry is in the normalised list exactly when it is the non-blank
      trim of some input entry. */
  lemma {:induction false} NormalizeMembership(xs: seq<string>, x: string)
    ensures x in Normalize(xs) <==> x != "" && x in Trims(xs)
  {
    if xs != [] {
      var init, t := xs[..|xs| - 1], TrimSpace(xs[|xs| - 1]);
      NormalizeMembership(init, x);
      assert x in Trims(xs) <==> (x in Trims(init) || x == t) by {
        if x in Trims(xs) {
          var i :| 0 <= i < |xs| && Trims(xs)[i] == x;
          if i < |init| { assert Trims(init)[i] == x; }
        }
        if x in Trims(init) {
          var i :| 0 <= i < |init| && Trims(init)[i] == x;
          assert Trims(xs)[i] == x;
        }
        if x == t { assert Trims(xs)[|xs| - 1] == x; }
      }
    }
  }

  /** A list that is already normalised is left as it is. */
  lemma {:induction false} NormalizeOfClean(xs: seq<string>)
    requires IsClean(xs)
    ensures Normalize(xs) == xs
  {
    if xs != [] {
      var init := xs[..|xs| - 1];
      assert IsClean(init);
      NormalizeOfClean(init);
      TrimSpaceOfTrimmed(xs[|xs| - 1]);
      assert xs[|xs| - 1] !in init;
      assert xs == init + [xs[|xs| - 1]];
    }
  }

  lemma NormalizeIdempotent(xs: seq<string>)
    ensures Normalize(Normalize(xs)) == Normalize(xs)
  {
    NormalizeOfClean(Normalize(xs));
  }

  /** First-occurrence order: normalising a prefix of the input gives a
      prefix of the result. */
  lemma {:induction false} NormalizePrefix(xs: seq<string>, k: nat)
    requires k <= |xs|
    ensures |Normalize(xs[..k])| <= |Normalize(xs)|
    ensures Normalize(xs[..k]) == Normalize(xs)[..|Normalize(xs[..k])|]
    decreases |xs| - k
  {
    if k < |xs| {
      var init := xs[..|xs| - 1];
      assert init[..k] == xs[..k];
      NormalizePrefix(init, k);
    } else {
      assert xs[..k] == xs;
    }
  }

  /** The entries of xs that are not in drop, in order. */
  function Filter(xs: seq<string>, drop: seq<string>): (r: seq<string>)
  {
    if xs == [] then []
    else
      var p := Filter(xs[..|xs| - 1], drop);
      if xs[|xs| - 1] in drop then p else p + [xs[|xs| - 1]]
  }

  lemma {:induction false} FilterMembership(xs: seq<string>, drop: seq<string>, x: string)
    ensures x in Filter(xs, drop) <==> x in xs && x !in drop
  {
    if xs != [] {
      var init := xs[..|xs| - 1];
      FilterMembership(init, drop, x);
      assert xs == init + [xs[|xs| - 1]];
    }
  }

  lemma {:induction false} FilterAppend(a: seq<string>, b: seq<string>, drop: seq<string>)
    ensures Filter(a + b, drop) == Filter(a, drop) + Filter(b, drop)
    decreases |b|
  {
    if b == [] {
      assert a + b == a;
    } else {
      assert (a + b)[..|a + b| - 1] == a + b[..|b| - 1];
      FilterAppend(a, b[..|b| - 1], drop);
    }
  }

  lemma {:induction false} FilterDisjoint(xs: seq<string>, drop: seq<string>)
    requires forall x :: x in xs ==> x !in drop
    ensures Filter(xs, drop) == xs
  {
    if xs != [] {
      var init := xs[..|xs| - 1];
      FilterDisjoint(init, drop);
      assert xs == init + [xs[|xs| - 1]];
    }
  }

  lemma {:induction false} FilterAll(xs: seq<string>)
    ensures Filter(xs, xs) == []
  {
    if xs != [] {
      FilterSubset(xs[..|xs| - 1], xs);
    }
  }

  lemma {:induction false} FilterSubset(xs: seq<string>, drop: seq<string>)
    requires forall x :: x in xs ==> x in drop
    ensures Filter(xs, drop) == []
  {
    if xs != [] {
      FilterSubset(xs[..|xs| - 1], drop);
    }
  }

  /** Normalising a clean list followed by more clean entries keeps the
      first list in place and appends the entries it did not have. */
  lemma {:induction false} NormalizeConcatClean(cur: seq<string>, inc: seq<string>)
    requires IsClean(cur) && IsClean(inc)
    ensures Normalize(cur + inc) == cur + Filter(inc, cur)
    decreases |inc|
  {
    if inc == [] {
      assert cur + inc == cur;
      NormalizeOfClean(cur);
    } else {
      var init, t := inc[..|inc| - 1], inc[|inc| - 1];
      assert IsClean(init);
      NormalizeConcatClean(cur, init);
      TrimSpaceOfTrimmed(t);
      assert (cur + inc)[..|cur + inc| - 1] == cur + init;
      assert t !in init;
      FilterMembership(init, cur, t);
    }
  }

  /** applyStorageServerAction, as a value. */
  function Apply(current: seq<string>, action: string, incoming: seq<string>): Result<seq<string>>
  {
    var cur, inc := Normalize(current), Normalize(incoming);
    var a := ToLower(TrimSpace(action));
    if a == "" || a == ActionSet then Ok(inc)
    else if a == ActionAdd then Ok(Normalize(cur + inc))
    else if a == ActionRemove then Ok(Filter(cur, inc))
    else Err(InvalidAction)
  }

  /** applyStorageServerAction: normalise both lists, then set, add or remove. */
  method ApplyStorageServerAction(current: seq<string>, action: string, incoming: seq<string>)
    returns (r: Result<seq<string>>)
    ensures r == Apply(current, action, incoming)
  {
    var normalizedCurrent := NormalizeServers(current);
    var normalizedIncoming := NormalizeServers(incoming);
    var a := ToLower(TrimSpace(action));
    if a == "" || a == ActionSet {
      return Ok(normalizedIncoming);
    } else if a == ActionAdd {
      var merged := NormalizeServers(normalizedCurrent + normalizedIncoming);
      return Ok(merged);
    } else if a == ActionRemove {
      var result := RemoveServers(normalizedCurrent, normalizedIncoming);
      return Ok(result);
    } else {
      return Err(InvalidAction);
    }
  }

  /** The remove branch: collect the incoming entries into a set, then keep
      the current entries that are not in it. */
  method RemoveServers(current: seq<string>, incoming: seq<string>) returns (result: seq<string>)
    ensures result == Filter(current, incoming)
  {
    var removeSet: set<string> := {};
    var j := 0;
    while j < |incoming|
      invariant 0 <= j <= |incoming|
      invariant removeSet == set x | x in incoming[..j]
    {
      assert incoming[..j + 1] == incoming[..j] + [incoming[j]];
      removeSet := removeSet + {incoming[j]};
      j := j + 1;
    }
    assert incoming[..j] == incoming;
    result := [];
    var i := 0;
    while i < |current|
      invariant 0 <= i <= |current|
      invariant result == Filter(current[..i], incoming)
    {
      assert current[..i + 1][..i] == current[..i];
      if current[i] !in removeSet {
        result := result + [current[i]];
      }
      i := i + 1;
    }
    assert current[..i] == current;
  }

  /** "" and "set" (in any case, with any surrounding space) replace the list
      with the normalised incoming list and ignore the current one. */
  lemma ApplySet(current: seq<string>, action: string, incoming: seq<string>)
    requires ToLower(TrimSpace(action)) in {"", "set"}
    ensures Apply(current, action, incoming) == Ok(Normalize(incoming))
  {
  }

  /** "add" keeps the current entries where they are and appends the
      incoming entries the list did not hold yet; the result holds both. */
  lemma ApplyAdd(current: seq<string>, action: string, incoming: seq<string>)
    requires ToLower(TrimSpace(action)) == "add"
    ensures Apply(current, action, incoming)
         == Ok(Normalize(current) + Filter(Normalize(incoming), Normalize(current)))
    ensures forall x :: (x in Apply(current, action, incoming).value
                         <==> x in Normalize(current) || x in Normalize(incoming))
  {
    var cur, inc := Normalize(current), Normalize(incoming);
    NormalizeConcatClean(cur, inc);
    forall x {
      FilterMembership(inc, cur, x);
    }
  }

  /** "remove" keeps, in order, the current entries that are not incoming. */
  lemma ApplyRemove(current: seq<string>, action: string, incoming: seq<string>)
    requires ToLower(TrimSpace(action)) == "remove"
    ensures Apply(current, action, incoming) == Ok(Filter(Normalize(current), Normalize(incoming)))
    ensures forall x :: (x in Apply(current, action, incoming).value
                         <==> x in Normalize(current) && x !in Normalize(incoming))
  {
    forall x {
      FilterMembership(Normalize(current), Normalize(incoming), x);
    }
  }

  /** Any other action is refused with ErrInvalidAction. */
  lemma ApplyInvalid(current: seq<string>, action: string, incoming: seq<string>)
    requires ToLower(TrimSpace(action)) !in {"", "set", "add", "remove"}
    ensures Apply(current, action, incoming) == Err(InvalidAction)
  {
  }

  /** Adding entries that are all new appends them as they are. */
  lemma AddDisjoint(current: seq<string>, add: string, extra: seq<string>)
    requires ToLower(TrimSpace(add)) == "add"
    requires forall x :: x in Normalize(extra) ==> x !in Normalize(current)
    ensures Apply(current, add, extra) == Ok(Normalize(current) + Normalize(extra))
  {
    var cur, inc := Normalize(current), Normalize(extra);
    NormalizeConcatClean(cur, inc);
    FilterDisjoint(inc, cur);
  }

  /** Removing what was just added restores the list, when the added
      entries were all new. */
  lemma RemoveUndoesAdd(current: seq<string>, add: string, remove: string, extra: seq<string>)
    requires ToLower(TrimSpace(add)) == "add" && ToLower(TrimSpace(remove)) == "remove"
    requires forall x :: x in Normalize(extra) ==> x !in Normalize(current)
    ensures Apply(current, add, extra).Ok?
    ensures Apply(Apply(current, add, extra).value, remove, extra) == Ok(Normalize(current))
  {
    var cur, inc := Normalize(current), Normalize(extra);
    AddDisjoint(current, add, extra);
    ApplyAdd(current, add, extra);
    var added := Apply(current, add, extra).value;
    assert added == cur + inc;
    NormalizeConcatClean(cur, inc);
    NormalizeIdempotent(cur + inc);
    assert Normalize(added) == added;
    FilterAppend(cur, inc, inc);
    FilterDisjoint(cur, inc);
    FilterAll(inc);
    assert Filter(added, inc) == cur;
    ApplyRemove(added, remove, extra);
  }

  /** parseStorageServerValue: blank text is the empty list; otherwise the
      text is read as a JSON string array, else as one JSON string, else as
      one raw entry, and normalised in every case. */
  function ParseStorageServerValue(raw: string): (r: seq<string>)
    ensures IsClean(r)
    ensures IsBlank(raw) ==> r == []
  {
    var value := TrimSpace(raw);
    if value == "" then []
    else
      match DecodeStringArray(value)
      case Some(arr) => Normalize(arr)
      case None =>
        match DecodeString(value)
        case Some(single) => Normalize([single])
        case None => Normalize([value])
  }

  /** encodeStorageServerValue: the JSON array text of the normalised list. */
  function EncodeStorageServerValue(servers: seq<string>): string
  {
    EncodeArray(Normalize(servers))
  }

  /** Text that begins with '[' and ends with ']' is already trimmed. */
  lemma EncodedIsTrimmed(xs: seq<string>)
    ensures TrimSpace(EncodeArray(xs)) == EncodeArray(xs)
  {
    TrimSpaceOfTrimmed(EncodeArray(xs));
  }

  /** Reading back what was written gives the normalised list. */
  lemma ParseEncodeRoundTrip(servers: seq<string>)
    ensures ParseStorageServerValue(EncodeStorageServerValue(servers)) == Normalize(servers)
  {
    var xs := Normalize(servers);
    EncodedIsTrimmed(xs);
    ArrayRoundTrip(xs);
    NormalizeIdempotent(servers);
  }

  lemma EncodeEmpty()
    ensures EncodeStorageServerValue([]) == "[]"
  {
  }

  /** isDuplicateKeyError, on the error's text (None for a nil error). */
  predicate IsDuplicateKeyError(err: Option<string>)
  {
    err.Some? &&
    var text := ToLower(err.value);
    Contains(text, "duplicate entry") || Contains(text, "error 1062") || Contains(text, "duplicated key")
  }

  /** The check does not depend on the case of the driver's message. */
  lemma DuplicateKeyIgnoresCase(msg: string)
    ensures IsDuplicateKeyError(Some(msg)) == IsDuplicateKeyError(Some(ToLower(msg)))
  {
    ToLowerIdempotent(msg);
  }

  lemma {:induction false} ContainsAfter(pre: string, p: string, post: string)
    ensures Contains(pre + p + post, p)
  {
    if pre == [] {
      assert (pre + p + post)[..|p|] == p;
    } else {
      assert (pre + p + post)[1..] == pre[1..] + p + post;
      ContainsAfter(pre[1..], p, post);
    }
  }

  /** MySQL's error 1062 is recognised, whatever the case of its text. */
  lemma MySqlDuplicateEntry(pre: string, post: string)
    ensures IsDuplicateKeyError(Some(pre + "Duplicate entry" + post))
  {
    var m := pre + "Duplicate entry" + post;
    assert ToLower(m) == ToLower(pre) + "duplicate entry" + ToLower(post) by {
      ToLowerAppend(pre + "Duplicate entry", post);
      ToLowerAppend(pre, "Duplicate entry");
      LowerDuplicateEntry();
    }
    ContainsAfter(ToLower(pre), "duplicate entry", ToLower(post));
  }

  /** Lower-casing distributes over concatenation. */
  lemma ToLowerAppend(a: string, b: string)
    ensures ToLower(a + b) == ToLower(a) + ToLower(b)
  {
    var s := a + b;
    var la, lb := ToLower(a), ToLower(b);
    var t := la + lb;
    forall i | 0 <= i < |s|
      ensures LowerRune(s[i]) == t[i]
    {
      if i < |a| {
        assert s[i] == a[i] && t[i] == la[i];
      } else {
        assert s[i] == b[i - |a|] && t[i] == lb[i - |a|];
      }
    }
    LowerPerIndex(s, t);
  }

  /** The marker text of MySQL's error 1062, lower-cased. */
  lemma LowerDuplicateEntry()
    ensures ToLower("Duplicate entry") == "duplicate entry"
  {
    var u, l := "Duplicate entry", "duplicate entry";
    assert LowerRune(u[0]) == l[0];
    assert forall i :: 1 <= i < |u| ==> u[i] == l[i] && !('A' <= l[i] <= 'Z');
    LowerPerIndex(u, l);
  }

  /** A string lower-cases to `t` when each of its characters does. */
  lemma LowerPerIndex(s: string, t: string)
    requires |s| == |t|
    requires forall i :: 0 <= i < |s| ==> LowerRune(s[i]) == t[i]
    ensures ToLower(s) == t
  {
  }

  /** Dropping entries from a normalised list leaves it normalised. */
  lemma {:induction false} FilterClean(xs: seq<string>, drop: seq<string>)
    requires IsClean(xs)
    ensures IsClean(Filter(xs, drop))
  {
    if xs != [] {
      var init := xs[..|xs| - 1];
      assert IsClean(init);
      FilterClean(init, drop);
      FilterMembership(init, drop, xs[|xs| - 1]);
    }
  }

  /** Whatever the action, an accepted result is a normalised list. */
  lemma ApplyIsClean(current: seq<string>, action: string, incoming: seq<string>)
    ensures Apply(current, action, incoming).Ok? ==> IsClean(Apply(current, action, incoming).value)
  {
    FilterClean(Normalize(current), Normalize(incoming));
  }

  /** What an action returns is what the next read of the stored column
      gives back. */
  lemma ApplyReadsBack(current: seq<string>, action: string, incoming: seq<string>)
    ensures Apply(current, action, incoming).Ok? ==>
      ParseStorageServerValue(EncodeStorageServerValue(Apply(current, action, incoming).value))
        == Apply(current, action, incoming).value
  {
    if Apply(current, action, incoming).Ok? {
      var next := Apply(current, action, incoming).value;
      ApplyIsClean(current, action, incoming);
      ParseEncodeRoundTrip(next);
      NormalizeOfClean(next);
    }
  }
}
