/** The small request helpers of the HTTP layers: unsigned decimal path
    parameters (handler/v1/storage_server_helpers.go and the older
    internal/controller/v1/http_helpers.go), the optional boolean form field
    (handler/v1/upload_helpers.go), the location-set update payload and
    response, and the mapping of errors to HTTP statuses in both layers. */
module HttpParams {
  import opened Wrappers
  import opened GoStrings
  import opened LocationSet

  /** The largest value a uint64 holds, plus one. */
  const Uint64Limit: nat := 0x1_0000_0000_0000_0000

  predicate IsDigit(c: char)
  {
    '0' <= c <= '9'
  }

  predicate AllDigits(s: string)
  {
    forall i :: 0 <= i < |s| ==> IsDigit(s[i])
  }

  /** The value of a run of decimal digits, read from the last digit back. */
  function DigitsValue(s: string): nat
    requires AllDigits(s)
  {
    if s == [] then 0
    else DigitsValue(s[..|s| - 1]) * 10 + (s[|s| - 1] as int - '0' as int)
  }

  /** strconv.ParseUint(s, 10, 64): one or more decimal digits, no sign, no
      separators, and a value that fits in 64 bits. */
  function ParseDecimal(s: string): (r: Option<nat>)
    ensures r.Some? ==> s != "" && AllDigits(s) && r.value < Uint64Limit
    ensures r.Some? ==> r.value == DigitsValue(s)
  {
    if s == [] || !AllDigits(s) then None
    else if DigitsValue(s) >= Uint64Limit then None
    else Some(DigitsValue(s))
  }

  function DigitChar(d: nat): char
    requires d < 10
  {
    ('0' as int + d) as char
  }

  /** strconv.FormatUint(n, 10) and fmt's %d: the decimal digits of n. */
  function DecimalText(n: nat): (r: string)
    ensures r != "" && AllDigits(r)
  {
    if n < 10 then [DigitChar(n)]
    else DecimalText(n / 10) + [DigitChar(n % 10)]
  }

  /** Reading back a printed number gives the number. */
  lemma {:induction false} DecimalValue(n: nat)
    ensures DigitsValue(DecimalText(n)) == n
  {
    if n >= 10 {
      DecimalValue(n / 10);
      var s := DecimalText(n);
      assert s[..|s| - 1] == DecimalText(n / 10);
    }
  }

  /** Every uint64, printed in decimal, parses back to itself. */
  lemma DecimalRoundTrip(n: nat)
    requires n < Uint64Limit
    ensures ParseDecimal(DecimalText(n)) == Some(n)
  {
    DecimalValue(n);
  }

  /** parseUintPathParam: the trimmed parameter must be non-blank and an
      unsigned decimal; zero is accepted. */
  function ParseUintPathParam(param: string, key: string): (r: Result<nat>)
    ensures r.Ok? <==> ParseDecimal(TrimSpace(param)).Some?
    ensures r.Ok? ==> r.value == ParseDecimal(TrimSpace(param)).value
    ensures IsBlank(param) ==> r == Err(Message(key + " is required"))
    ensures !IsBlank(param) && r.Err? ==> r == Err(Message(key + " must be an unsigned integer"))
  {
    var raw := TrimSpace(param);
    if raw == "" then Err(Message(key + " is required"))
    else match ParseDecimal(raw)
      case None => Err(Message(key + " must be an unsigned integer"))
      case Some(v) => Ok(v)
  }

  /** A printed id, with or without surrounding blanks, parses back. */
  lemma PathParamRoundTrip(n: nat, key: string)
    requires n < Uint64Limit
    ensures ParseUintPathParam(DecimalText(n), key) == Ok(n)
    ensures ParseUintPathParam(" " + DecimalText(n) + "\n", key) == Ok(n)
  {
    DecimalRoundTrip(n);
    var s := DecimalText(n);
    assert IsTrimmed(s) by {
      assert !IsSpace(s[0]) && !IsSpace(s[|s| - 1]);
    }
    TrimSpaceOfTrimmed(s);
    TrimPadded(s);
  }

  /** One blank on the left and a newline on the right are trimmed away. */
  lemma TrimPadded(s: string)
    requires s != "" && IsTrimmed(s)
    ensures TrimSpace(" " + s + "\n") == s
  {
    var p := " " + s + "\n";
    assert TrimLeftSpace(p) == TrimLeftSpace(p[1..]);
    assert p[1..] == s + "\n";
    TrimLeftTrimmedPlus(s);
    TrimRightNewline(s);
  }

  lemma TrimLeftTrimmedPlus(s: string)
    requires s != "" && IsTrimmed(s)
    ensures TrimLeftSpace(s + "\n") == s + "\n"
  {
    assert (s + "\n")[0] == s[0];
  }

  lemma TrimRightNewline(s: string)
    requires IsTrimmed(s)
    ensures TrimRightSpace(s + "\n") == s
  {
    assert (s + "\n")[..|s + "\n"| - 1] == s;
    TrimSpaceOfTrimmed(s);
    if s != [] {
      assert !IsSpace(s[|s| - 1]);
    }
  }

  /** parseIDParam of the internal controllers: the raw parameter, not
      trimmed, must be a non-zero unsigned decimal; anything else is the
      internal ErrInvalidID wrapped together with the raw text. */
  function ParseIDParam(raw: string): (r: Result<nat>)
    ensures r.Ok? <==> ParseDecimal(raw).Some? && ParseDecimal(raw).value != 0
    ensures r.Ok? ==> r.value == ParseDecimal(raw).value && r.value > 0
    ensures r.Err? ==> r.error == Wrapped("", InternalInvalidID, ": " + raw) && Is(r.error, InternalInvalidID)
  {
    var id := ParseDecimal(raw);
    if id.None? || id.value == 0 then Err(Wrapped("", InternalInvalidID, ": " + raw))
    else Ok(id.value)
  }

  /** Every positive uint64 id round-trips through the path; zero does not. */
  lemma IDParamRoundTrip(n: nat)
    requires n < Uint64Limit
    ensures n > 0 ==> ParseIDParam(DecimalText(n)) == Ok(n)
    ensures n == 0 ==> ParseIDParam(DecimalText(n)).Err?
  {
    DecimalRoundTrip(n);
  }

  /** strconv.ParseBool */
  function ParseBool(s: string): (r: Option<bool>)
    ensures r == Some(true) <==> s in {"1", "t", "T", "TRUE", "true", "True"}
    ensures r == Some(false) <==> s in {"0", "f", "F", "FALSE", "false", "False"}
  {
    if s in {"1", "t", "T", "TRUE", "true", "True"} then Some(true)
    else if s in {"0", "f", "F", "FALSE", "false", "False"} then Some(false)
    else None
  }

  /** strconv.FormatBool */
  function FormatBool(b: bool): string
  {
    if b then "true" else "false"
  }

  /** parseOptionalBoolForm over the posted form fields: an absent or blank
      field is the default; otherwise the trimmed text must parse as a
      boolean, and on failure the value is false whatever the default. */
  function ParseOptionalBoolForm(form: map<string, string>, key: string, defaultValue: bool)
    : (r: (bool, Option<Error>))
    ensures (key !in form || IsBlank(form[key])) ==> r == (defaultValue, None)
    ensures r.1.Some? ==> r == (false, Some(Message(key + " must be a boolean")))
    ensures r.1.Some? <==> key in form && !IsBlank(form[key]) && ParseBool(TrimSpace(form[key])).None?
  {
    if key !in form || TrimSpace(form[key]) == "" then (defaultValue, None)
    else match ParseBool(TrimSpace(form[key]))
      case None => (false, Some(Message(key + " must be a boolean")))
      case Some(b) => (b, None)
  }

  /** A posted boolean is read back as itself, whatever the default. */
  lemma BoolFormRoundTrip(form: map<string, string>, key: string, b: bool, defaultValue: bool)
    ensures ParseOptionalBoolForm(form[key := FormatBool(b)], key, defaultValue) == (b, None)
  {
    var s := FormatBool(b);
    assert IsTrimmed(s) by {
      assert !IsSpace(s[0]) && !IsSpace(s[|s| - 1]);
    }
    TrimSpaceOfTrimmed(s);
  }

  // ---------------------------------------------------------------- location-set payload

  /** The body of a location-set update request. */
  datatype StorageServerPayload = StorageServerPayload(action: string, storageServer: string, storageServers: seq<string>)

  /** The input entries, trimmed, with the blank ones dropped; order and
      repeats are kept. */
  function NonBlank(xs: seq<string>): (r: seq<string>)
    ensures forall i :: 0 <= i < |r| ==> r[i] != "" && IsTrimmed(r[i])
  {
    if xs == [] then []
    else
      var t := TrimSpace(xs[|xs| - 1]);
      TrimSpaceEnds(xs[|xs| - 1]);
      NonBlank(xs[..|xs| - 1]) + (if t == "" then [] else [t])
  }

  /** The action of a location-set update: trimmed and lower-cased, "set"
      when blank. */
  function PayloadAction(action: string): (r: string)
    ensures LowerTrim(action) != "" ==> r == LowerTrim(action)
    ensures r != ""
  {
    if LowerTrim(action) == "" then ActionSet else LowerTrim(action)
  }

  /** normalizeStorageServerPayload: the action, and the single server
      followed by the list, trimmed and without blanks (repeats are left to
      the record store). */
  method NormalizeStorageServerPayload(payload: StorageServerPayload) returns (action: string, servers: seq<string>)
    ensures action == PayloadAction(payload.action)
    ensures servers == NonBlank([payload.storageServer] + payload.storageServers)
  {
    action := LowerTrim(payload.action);
    if action == "" {
      action := ActionSet;
    }
    var all := [payload.storageServer] + payload.storageServers;
    servers := [];
    var single := TrimSpace(payload.storageServer);
    if single != "" {
      servers := servers + [single];
    }
    assert servers == NonBlank(all[..1]);
    var i := 0;
    while i < |payload.storageServers|
      invariant 0 <= i <= |payload.storageServers|
      invariant servers == NonBlank(all[..i + 1])
    {
      NonBlankSnoc(all, i + 1);
      assert all[i + 1] == payload.storageServers[i];
      var value := TrimSpace(payload.storageServers[i]);
      if value != "" {
        servers := servers + [value];
      }
      i := i + 1;
    }
    assert all[..i + 1] == all;
  }

  /** One more input entry adds its trim, unless blank. */
  lemma NonBlankSnoc(xs: seq<string>, n: nat)
    requires n < |xs|
    ensures NonBlank(xs[..n + 1]) ==
              NonBlank(xs[..n]) + (if TrimSpace(xs[n]) == "" then [] else [TrimSpace(xs[n])])
  {
    assert xs[..n + 1][..n] == xs[..n];
  }

  /** Dropping blanks first changes nothing once the record store
      normalises: the stored set is that of the raw entries. */
  lemma {:induction false} NormalizeNonBlank(xs: seq<string>)
    ensures Normalize(NonBlank(xs)) == Normalize(xs)
  {
    if xs != [] {
      var init, t := xs[..|xs| - 1], TrimSpace(xs[|xs| - 1]);
      NormalizeNonBlank(init);
      if t != "" {
        var ys := NonBlank(init) + [t];
        assert NonBlank(xs) == ys;
        assert ys[..|ys| - 1] == NonBlank(init);
        TrimSpaceEnds(xs[|xs| - 1]);
        TrimSpaceOfTrimmed(t);
      } else {
        assert NonBlank(xs) == NonBlank(init);
      }
    }
  }

  /** Every kept entry is the trim of an input entry. */
  lemma {:induction false} NonBlankFromInput(xs: seq<string>, x: string)
    requires x in NonBlank(xs)
    ensures x != "" && exists i :: 0 <= i < |xs| && TrimSpace(xs[i]) == x
  {
    var init, t := xs[..|xs| - 1], TrimSpace(xs[|xs| - 1]);
    if x in NonBlank(init) {
      NonBlankFromInput(init, x);
      var i :| 0 <= i < |init| && TrimSpace(init[i]) == x;
      assert xs[i] == init[i];
    } else {
      assert TrimSpace(xs[|xs| - 1]) == x;
    }
  }

  /** The response of a location-set request: the primary server is the
      first entry or "", next to the whole list. */
  datatype StorageServerResponse = StorageServerResponse(id: nat, storageServer: string, storageServers: seq<string>)

  function BuildStorageServerResponse(id: nat, servers: seq<string>): (r: StorageServerResponse)
    ensures r.id == id && r.storageServers == servers
    ensures servers != [] ==> r.storageServer == servers[0]
    ensures servers == [] ==> r.storageServer == ""
  {
    StorageServerResponse(id, if |servers| > 0 then servers[0] else "", servers)
  }

  /** For a normalised location set the primary server is blank exactly
      when the set is empty. */
  lemma PrimaryOfCleanSet(id: nat, servers: seq<string>)
    requires IsClean(servers)
    ensures BuildStorageServerResponse(id, servers).storageServer == "" <==> servers == []
    ensures servers != [] ==> BuildStorageServerResponse(id, servers).storageServer in servers
  {
  }

  // ---------------------------------------------------------------- error statuses

  /** The status and the "error" text of a failed v1 request. */
  function Status(err: Error): (r: (int, string))
  {
    if Is(err, InvalidID) || Is(err, NilEntity) || Is(err, InvalidAction) then (400, ErrorText(err))
    else if Is(err, AlreadyExists) then (409, ErrorText(err))
    else if Is(err, RecordNotFound) then (404, "record not found")
    else (500, ErrorText(err))
  }

  /** The status and the "error" text of a failed request to the older
      internal controllers, which know no conflict status. */
  function InternalStatus(err: Error): (r: (int, string))
  {
    if Is(err, InternalInvalidID) || Is(err, InternalNilEntity) then (400, ErrorText(err))
    else if Is(err, RecordNotFound) then (404, "record not found")
    else (500, ErrorText(err))
  }

  /** Wrapping an error with fmt.Errorf("...%w...") keeps its status. */
  lemma WrappedKeepsStatus(prefix: string, err: Error, suffix: string)
    ensures Status(Wrapped(prefix, err, suffix)).0 == Status(err).0
    ensures InternalStatus(Wrapped(prefix, err, suffix)).0 == InternalStatus(err).0
  {
    var w := Wrapped(prefix, err, suffix);
    assert Is(w, InvalidID) == Is(err, InvalidID);
    assert Is(w, NilEntity) == Is(err, NilEntity);
    assert Is(w, InvalidAction) == Is(err, InvalidAction);
    assert Is(w, AlreadyExists) == Is(err, AlreadyExists);
    assert Is(w, RecordNotFound) == Is(err, RecordNotFound);
    assert Is(w, InternalInvalidID) == Is(err, InternalInvalidID);
    assert Is(w, InternalNilEntity) == Is(err, InternalNilEntity);
  }

  /** The statuses of the v1 layer's sentinel errors; every error whose
      chain holds none of them is a server error with its own text. */
  lemma StatusOfSentinels(err: Error)
    ensures (Is(err, InvalidID) || Is(err, NilEntity) || Is(err, InvalidAction)) ==> Status(err) == (400, ErrorText(err))
    ensures Is(err, AlreadyExists) && !Is(err, InvalidID) && !Is(err, NilEntity) && !Is(err, InvalidAction)
            ==> Status(err) == (409, ErrorText(err))
    ensures Status(err).0 == 404 ==> Status(err).1 == "record not found" && Is(err, RecordNotFound)
    ensures Status(err).0 in {400, 404, 409, 500}
    ensures (!Is(err, InvalidID) && !Is(err, NilEntity) && !Is(err, InvalidAction)
             && !Is(err, AlreadyExists) && !Is(err, RecordNotFound)) ==> Status(err) == (500, ErrorText(err))
  {
  }

  /** The internal layer sends a duplicate record to the server-error
      status, where the v1 layer answers with a conflict. */
  lemma ConflictOnlyInV1()
    ensures Status(AlreadyExists).0 == 409
    ensures InternalStatus(AlreadyExists).0 == 500
  {
  }

  /** Every refusal of parseIDParam is answered with a client error that
      names the raw parameter. */
  lemma BadIDIsClientError(raw: string)
    requires ParseIDParam(raw).Err?
    ensures InternalStatus(ParseIDParam(raw).error) == (400, ErrorText(InternalInvalidID) + ": " + raw)
  {
    var e := ParseIDParam(raw).error;
    assert Is(e, InternalInvalidID);
    assert ErrorText(e) == "" + ErrorText(InternalInvalidID) + ": " + raw;
    assert "" + ErrorText(InternalInvalidID) == ErrorText(InternalInvalidID);
  }
}
