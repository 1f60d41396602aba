/** The metadata patch parsers of the v1 handlers
    (handler/v1/model_update_helpers.go, handler/v1/dataset_update_helpers.go):
    a decoded JSON body is checked key by key and turned into the column
    updates handed to the record services.  The body is a Go map, whose
    iteration order is not fixed; it is modelled as the sequence of its
    members in the order visited, and the lemmas below state what holds
    whatever that order is. */
module MetadataPatch {
  import opened Wrappers
  import opened GoStrings
  import opened Json
  import opened LocationSet
  import opened StorageField
  import opened ArtifactPaths
  import opened Values
  import opened HttpParams
  import Dao

  /** The two library calls the parsers make whose grammar the model does
      not spell out: strconv.ParseFloat on trimmed text, and json.Valid. */
  datatype Oracles = Oracles(parseFloat: string -> Option<real>, validJson: string -> bool)

  // ---------------------------------------------------------------- field parsers

  /** parseRequiredStringField: a string, trimmed, that is not blank. */
  function RequiredString(value: Any, field: string): (r: Result<string>)
    ensures r.Ok? <==> value.Str? && !IsBlank(value.s)
    ensures r.Ok? ==> r.value == TrimSpace(value.s) && r.value != "" && IsTrimmed(r.value)
    ensures !value.Str? ==> r == Err(Message(field + " must be string"))
    ensures value.Str? && IsBlank(value.s) ==> r == Err(Message(field + " cannot be empty"))
  {
    if !value.Str? then Err(Message(field + " must be string"))
    else
      var text := TrimSpace(value.s);
      TrimSpaceEnds(value.s);
      if text == "" then Err(Message(field + " cannot be empty")) else Ok(text)
  }

  /** parseNullableStringField: null and blank text clear the column; other
      text is stored trimmed; any other value is refused. */
  function NullableString(value: Any, field: string): (r: Result<Value>)
    ensures r.Ok? <==> value.Nil? || value.Str?
    ensures r.Ok? ==> (r.value == Null <==> value.Nil? || IsBlank(value.s))
    ensures r.Ok? && r.value != Null ==> r.value == Text(TrimSpace(value.s)) && IsTrimmed(r.value.s)
    ensures r.Err? ==> r.error == Message(field + " must be string or null")
  {
    if value.Nil? then Ok(Null)
    else if !value.Str? then Err(Message(field + " must be string or null"))
    else
      var text := TrimSpace(value.s);
      TrimSpaceEnds(value.s);
      if text == "" then Ok(Null) else Ok(Text(text))
  }

  /** parseFloatField for the values a JSON body decodes to: a number as
      it is, text through strconv.ParseFloat. */
  function FloatField(value: Any, field: string, o: Oracles): (r: Result<real>)
    ensures value.Number? ==> r == Ok(value.x)
    ensures value.Str? ==> (r.Ok? <==> o.parseFloat(TrimSpace(value.s)).Some?)
    ensures !value.Number? && !value.Str? ==> r.Err?
    ensures r.Err? ==> r.error == Message(field + " must be numeric")
  {
    match value
    case Number(x) => Ok(x)
    case Str(s) =>
      (match o.parseFloat(TrimSpace(s))
       case Some(x) => Ok(x)
       case None => Err(Message(field + " must be numeric")))
    case _ => Err(Message(field + " must be numeric"))
  }

  /** parsePositiveFloatField */
  function PositiveFloat(value: Any, field: string, o: Oracles): (r: Result<real>)
    ensures r.Ok? <==> FloatField(value, field, o).Ok? && FloatField(value, field, o).value > 0.0
    ensures r.Ok? ==> r.value == FloatField(value, field, o).value
    ensures FloatField(value, field, o).Ok? && r.Err? ==> r.error == Message(field + " must be greater than 0")
  {
    match FloatField(value, field, o)
    case Err(e) => Err(e)
    case Ok(x) => if x <= 0.0 then Err(Message(field + " must be greater than 0")) else Ok(x)
  }

  /** parseNonNegativeFloatField */
  function NonNegativeFloat(value: Any, field: string, o: Oracles): (r: Result<real>)
    ensures r.Ok? <==> FloatField(value, field, o).Ok? && FloatField(value, field, o).value >= 0.0
    ensures r.Ok? ==> r.value == FloatField(value, field, o).value
    ensures FloatField(value, field, o).Ok? && r.Err? ==> r.error == Message(field + " must be greater than or equal to 0")
  {
    match FloatField(value, field, o)
    case Err(e) => Err(e)
    case Ok(x) => if x < 0.0 then Err(Message(field + " must be greater than or equal to 0")) else Ok(x)
  }

  /** parseUintField for the values a JSON body decodes to: a whole,
      non-negative number, or trimmed unsigned decimal text. */
  function UintField(value: Any, field: string): (r: Result<nat>)
    ensures value.Number? ==> (r.Ok? <==> value.x >= 0.0 && value.x.Floor as real == value.x)
    ensures value.Number? && r.Ok? ==> r.value as real == value.x
    ensures value.Str? ==> (r.Ok? <==> ParseDecimal(TrimSpace(value.s)).Some?)
    ensures value.Str? && r.Ok? ==> r.value == ParseDecimal(TrimSpace(value.s)).value
    ensures !value.Number? && !value.Str? ==> r.Err?
    ensures r.Err? ==> r.error == Message(field + " must be a non-negative integer")
  {
    match value
    case Number(x) =>
      if x < 0.0 || x.Floor as real != x then Err(Message(field + " must be a non-negative integer"))
      else Ok(x.Floor)
    case Str(s) =>
      var trimmed := TrimSpace(s);
      if trimmed == "" then Err(Message(field + " must be a non-negative integer"))
      else
        (match ParseDecimal(trimmed)
         case None => Err(Message(field + " must be a non-negative integer"))
         case Some(v) => Ok(v))
    case _ => Err(Message(field + " must be a non-negative integer"))
  }

  /** A count sent as a JSON number or as decimal text is read as itself. */
  lemma UintFieldRoundTrip(n: nat, field: string)
    requires n < Uint64Limit
    ensures UintField(Number(n as real), field) == Ok(n)
    ensures UintField(Str(DecimalText(n)), field) == Ok(n)
  {
    DecimalRoundTrip(n);
    var s := DecimalText(n);
    assert IsTrimmed(s) by {
      assert !IsSpace(s[0]) && !IsSpace(s[|s| - 1]);
    }
    TrimSpaceOfTrimmed(s);
  }

  /** parseNullableUintField: null clears the column, anything else must be
      a count. */
  function NullableUint(value: Any, field: string): (r: Result<Value>)
    ensures value.Nil? ==> r == Ok(Null)
    ensures !value.Nil? ==> (r.Ok? <==> UintField(value, field).Ok?)
    ensures !value.Nil? && r.Ok? ==> r.value == Count(UintField(value, field).value)
  {
    if value.Nil? then Ok(Null)
    else match UintField(value, field)
      case Err(e) => Err(e)
      case Ok(n) => Ok(Count(n))
  }

  /** parseJSONRawField for the values a JSON body decodes to: null and
      blank text clear the column, other text must be valid JSON and is
      stored trimmed, and any other value is stored re-encoded. */
  function JSONRaw(value: Any, field: string, o: Oracles): (r: Result<Value>)
    ensures (value.Nil? || (value.Str? && IsBlank(value.s))) ==> r == Ok(Null)
    ensures r.Err? <==> value.Str? && !IsBlank(value.s) && !o.validJson(TrimSpace(value.s))
    ensures r.Err? ==> r.error == Message(field + " must be valid json")
    ensures r.Ok? && value.Str? && !IsBlank(value.s) ==> r.value == Json(TrimSpace(value.s))
    ensures !value.Nil? && !value.Str? ==> r == Ok(Marshal(value))
  {
    match value
    case Nil => Ok(Null)
    case Str(s) =>
      var trimmed := TrimSpace(s);
      if trimmed == "" then Ok(Null)
      else if !o.validJson(trimmed) then Err(Message(field + " must be valid json"))
      else Ok(Json(trimmed))
    case _ => Ok(Marshal(value))
  }

  // ---------------------------------------------------------------- location-set values

  /** The string branch of parseStorageServerPatchValue: blank text is the
      empty list; otherwise a JSON string array, else one JSON string, else
      the trimmed text as one entry. */
  function TextServers(s: string): seq<string>
  {
    var trimmed := TrimSpace(s);
    if trimmed == "" then []
    else match DecodeStringArray(trimmed)
      case Some(arr) => arr
      case None =>
        match DecodeString(trimmed)
        case Some(single) => [single]
        case None => [trimmed]
  }

  /** The array branch of parseStorageServerPatchValue: every item must be
      a string; the first one that is not is named by its index. */
  function ItemServers(items: seq<Any>): Result<seq<string>>
  {
    if items == [] then Ok([])
    else match ItemServers(items[..|items| - 1])
      case Err(e) => Err(e)
      case Ok(xs) =>
        var last := items[|items| - 1];
        if last.Str? then Ok(xs + [last.s])
        else Err(Message("storage_servers[" + DecimalText(|items| - 1) + "] must be string"))
  }

  /** The loop of that branch. */
  method PatchServerItems(items: seq<Any>) returns (r: Result<seq<string>>)
    ensures r == ItemServers(items)
  {
    var servers: seq<string> := [];
    var i := 0;
    while i < |items|
      invariant 0 <= i <= |items|
      invariant ItemServers(items[..i]) == Ok(servers)
    {
      assert items[..i + 1][..i] == items[..i];
      if !items[i].Str? {
        ErrorPersists(items, i + 1);
        return Err(Message("storage_servers[" + DecimalText(i) + "] must be string"));
      }
      servers := servers + [items[i].s];
      i := i + 1;
    }
    assert items[..i] == items;
    return Ok(servers);
  }

  /** Once an item is refused, the items after it do not matter. */
  lemma {:induction false} ErrorPersists(items: seq<Any>, k: nat)
    requires k <= |items| && ItemServers(items[..k]).Err?
    ensures ItemServers(items) == ItemServers(items[..k])
    decreases |items| - k
  {
    if k < |items| {
      var init := items[..|items| - 1];
      assert init[..k] == items[..k];
      ErrorPersists(init, k);
    } else {
      assert items[..k] == items;
    }
  }

  /** The array branch accepts exactly the arrays of strings, keeps them in
      order, and otherwise names the first item that is not a string. */
  lemma {:induction false} ItemServersMeaning(items: seq<Any>)
    ensures ItemServers(items).Ok? <==> forall i :: 0 <= i < |items| ==> items[i].Str?
    ensures ItemServers(items).Ok? ==>
              |ItemServers(items).value| == |items|
              && forall i :: 0 <= i < |items| ==> ItemServers(items).value[i] == items[i].s
    ensures ItemServers(items).Err? ==>
              exists k :: (0 <= k < |items| && !items[k].Str? && (forall i :: 0 <= i < k ==> items[i].Str?)
                           && ItemServers(items).error == Message("storage_servers[" + DecimalText(k) + "] must be string"))
  {
    if items != [] {
      var init := items[..|items| - 1];
      ItemServersMeaning(init);
      assert forall i :: 0 <= i < |init| ==> init[i] == items[i];
      if ItemServers(init).Err? {
        var k :| 0 <= k < |init| && !init[k].Str? && (forall i :: 0 <= i < k ==> init[i].Str?)
                 && ItemServers(init).error == Message("storage_servers[" + DecimalText(k) + "] must be string");
        assert !items[k].Str?;
      }
    }
  }

  /** parseStorageServerPatchValue for the values a JSON body decodes to. */
  function PatchServers(value: Any): (r: Result<seq<string>>)
    ensures value.Nil? ==> r == Ok([])
    ensures value.Str? ==> r == Ok(TextServers(value.s))
    ensures value.Array? ==> r == ItemServers(value.items)
    ensures !value.Nil? && !value.Str? && !value.Array?
            ==> r == Err(Message("storage_server must be string, string array or null"))
  {
    match value
    case Nil => Ok([])
    case Str(s) => Ok(TextServers(s))
    case Array(items) => ItemServers(items)
    case _ => Err(Message("storage_server must be string, string array or null"))
  }

  /** normalizeStorageServerPatchValue: the accepted list, normalised and
      written as JSON array text. */
  function NormalizeStorageServerPatchValue(value: Any): (r: Result<string>)
    ensures r.Ok? <==> PatchServers(value).Ok?
    ensures r.Ok? ==> r.value == EncodeArray(Normalize(PatchServers(value).value))
  {
    match PatchServers(value)
    case Err(e) => Err(e)
    case Ok(servers) => Ok(EncodeArray(Normalize(servers)))
  }

  /** A text value is normalised exactly as the service layer normalises a
      storage_server column. */
  lemma PatchTextIsField(s: string)
    ensures NormalizeStorageServerPatchValue(Str(s)) == Ok(FieldValue(s))
  {
    var trimmed := TrimSpace(s);
    if trimmed != "" {
      match DecodeStringArray(trimmed)
      case Some(arr) =>
      case None =>
    }
  }

  /** What the patch writes reads back as the normalised list, and the
      service layer's own normalisation leaves it unchanged. */
  lemma PatchReadsBack(value: Any)
    requires PatchServers(value).Ok?
    ensures ParseStorageServerValue(NormalizeStorageServerPatchValue(value).value) == Normalize(PatchServers(value).value)
    ensures FieldValue(NormalizeStorageServerPatchValue(value).value) == NormalizeStorageServerPatchValue(value).value
  {
    var xs := PatchServers(value).value;
    ParseEncodeRoundTrip(xs);
    LocationSet.NormalizeIdempotent(xs);
    ParseEncodeRoundTrip(Normalize(xs));
  }

  /** A null location set clears the column to the empty array. */
  lemma NullPatchIsEmpty()
    ensures NormalizeStorageServerPatchValue(Nil) == Ok("[]")
  {
    EncodeEmpty();
  }

  // ---------------------------------------------------------------- one key

  /** What one key of the body asks for: a column to set, or (for the two
      location-set keys) the value to normalise once the loop is done. */
  datatype Entry = Assign(column: string, value: Value) | StorageKey(plural: bool, raw: Any)

  const SingleKey: string := "storage_server"
  const PluralKey: string := "storage_servers"
  const ModelRequired: set<string> := {"name", "task_type"}
  const ModelNullable: set<string> := {"algorithm_id", "description", "framework", "paper", "params_url"}
  const DatasetRequired: set<string> := {"name", "task_type", "dataset_format", "dataset_path", "version"}
  const DatasetNullable: set<string> := {"description", "config_path"}
  const DatasetCounts: set<string> := {"num_classes", "train_count", "val_count", "test_count"}

  function AssignText(r: Result<string>, column: string): Result<Entry>
  {
    match r
    case Err(e) => Err(e)
    case Ok(s) => Ok(Assign(column, Text(s)))
  }

  function AssignReal(r: Result<real>, column: string): Result<Entry>
  {
    match r
    case Err(e) => Err(e)
    case Ok(x) => Ok(Assign(column, Real(x)))
  }

  function AssignValue(r: Result<Value>, column: string): Result<Entry>
  {
    match r
    case Err(e) => Err(e)
    case Ok(v) => Ok(Assign(column, v))
  }

  /** The file-name key: a required string reduced to its base name. */
  function FileNameEntry(value: Any, key: string): (r: Result<Entry>)
    ensures r.Ok? ==> r.value.Assign? && r.value.column == key && r.value.value.Text? && IsPlainName(r.value.value.s)
    ensures RequiredString(value, key).Err? ==> r == Err(RequiredString(value, key).error)
    ensures r.Ok? ==> RequiredString(value, key).Ok?
                      && NormalizeArtifactFileName(RequiredString(value, key).value) == Ok(r.value.value.s)
    ensures RequiredString(value, key).Ok? && r.Err? ==> r.error == Message(key + " is invalid")
    ensures RequiredString(value, key).Ok? ==> (r.Err? <==> NormalizeArtifactFileName(RequiredString(value, key).value).Err?)
  {
    match RequiredString(value, key)
    case Err(e) => Err(e)
    case Ok(name) =>
      NormalizedIsPlain(name);
      match NormalizeArtifactFileName(name)
      case Err(_) => Err(Message(key + " is invalid"))
      case Ok(n) => Ok(Assign(key, Text(n)))
  }

  /** One key of a model patch, as the switch of parseModelMetadataUpdates
      treats it. */
  function ModelEntry(key: string, value: Any, o: Oracles): (r: Result<Entry>)
    ensures key in Immutable(Dao.ModelKind) ==> r == Err(Message(key + " is immutable"))
    ensures key !in Known(Dao.ModelKind) ==> r == Err(Message("unsupported field: " + key))
    ensures key == SingleKey ==> r == Ok(StorageKey(false, value))
    ensures key == PluralKey ==> r == Ok(StorageKey(true, value))
    ensures r.Ok? && r.value.Assign? ==> r.value.column == key && key != SingleKey && key != PluralKey
    ensures r.Ok? && r.value.StorageKey? ==> key == SingleKey || key == PluralKey
    ensures r.Ok? && key == Dao.FileColumn(Dao.ModelKind) ==> r.value.value.Text? && IsPlainName(r.value.value.s)
  {
    if key in {"id", "create_time"} then Err(Message(key + " is immutable"))
    else if key in ModelRequired then AssignText(RequiredString(value, key), key)
    else if key == "version" then AssignReal(PositiveFloat(value, key, o), key)
    else if key == "base_model_id" then
      (match UintField(value, key)
       case Err(e) => Err(e)
       case Ok(n) => Ok(Assign(key, Count(n))))
    else if key in ModelNullable then AssignValue(NullableString(value, key), key)
    else if key == "weight_size_mb" then AssignReal(NonNegativeFloat(value, key, o), key)
    else if key == "weight_name" then FileNameEntry(value, key)
    else if key == SingleKey then Ok(StorageKey(false, value))
    else if key == PluralKey then Ok(StorageKey(true, value))
    else Err(Message("unsupported field: " + key))
  }

  /** One key of a dataset patch, as the switch of
      parseDatasetMetadataUpdates treats it. */
  function DatasetEntry(key: string, value: Any, o: Oracles): (r: Result<Entry>)
    ensures key in Immutable(Dao.DatasetKind) ==> r == Err(Message(key + " is immutable"))
    ensures key !in Known(Dao.DatasetKind) ==> r == Err(Message("unsupported field: " + key))
    ensures key == SingleKey ==> r == Ok(StorageKey(false, value))
    ensures key == PluralKey ==> r == Ok(StorageKey(true, value))
    ensures r.Ok? && r.value.Assign? ==> r.value.column == key && key != SingleKey && key != PluralKey
    ensures r.Ok? && r.value.StorageKey? ==> key == SingleKey || key == PluralKey
    ensures r.Ok? && key == Dao.FileColumn(Dao.DatasetKind) ==> r.value.value.Text? && IsPlainName(r.value.value.s)
  {
    if key in {"id", "created_at"} then Err(Message(key + " is immutable"))
    else if key in DatasetRequired then AssignText(RequiredString(value, key), key)
    else if key in DatasetNullable then AssignValue(NullableString(value, key), key)
    else if key == "file_name" then FileNameEntry(value, key)
    else if key in DatasetCounts then AssignValue(NullableUint(value, key), key)
    else if key == "class_names" then AssignValue(JSONRaw(value, key, o), key)
    else if key == "size_mb" then AssignReal(NonNegativeFloat(value, key, o), key)
    else if key == SingleKey then Ok(StorageKey(false, value))
    else if key == PluralKey then Ok(StorageKey(true, value))
    else Err(Message("unsupported field: " + key))
  }

  /** The keys each parser refuses outright as immutable. */
  function Immutable(kind: Dao.Kind): set<string>
  {
    if kind == Dao.ModelKind then {"id", "create_time"} else {"id", "created_at"}
  }

  /** The keys each parser knows. */
  function Known(kind: Dao.Kind): (r: set<string>)
  {
    if kind == Dao.ModelKind
    then {"id", "create_time", "version", "base_model_id", "weight_size_mb", "weight_name", SingleKey, PluralKey}
         + ModelRequired + ModelNullable
    else {"id", "created_at", "file_name", "class_names", "size_mb", SingleKey, PluralKey}
         + DatasetRequired + DatasetNullable + DatasetCounts
  }

  function KeyEntry(kind: Dao.Kind, key: string, value: Any, o: Oracles): (r: Result<Entry>)
    ensures key in Immutable(kind) ==> r == Err(Message(key + " is immutable"))
    ensures key !in Known(kind) ==> r == Err(Message("unsupported field: " + key))
    ensures key == SingleKey ==> r == Ok(StorageKey(false, value))
    ensures key == PluralKey ==> r == Ok(StorageKey(true, value))
    ensures r.Ok? && r.value.Assign? ==> r.value.column == key && key != SingleKey && key != PluralKey
    ensures r.Ok? && r.value.StorageKey? ==> key == SingleKey || key == PluralKey
    ensures r.Ok? && key == Dao.FileColumn(kind) ==> r.value.value.Text? && IsPlainName(r.value.value.s)
  {
    if kind == Dao.ModelKind then ModelEntry(key, value, o) else DatasetEntry(key, value, o)
  }

  // ---------------------------------------------------------------- the whole body

  /** Each member of the body with what its key asks for, in the order
      visited. */
  function Entries(kind: Dao.Kind, payload: seq<(string, Any)>, o: Oracles): (r: seq<(string, Result<Entry>)>)
    ensures |r| == |payload|
    ensures forall i :: 0 <= i < |payload| ==> r[i] == (payload[i].0, KeyEntry(kind, payload[i].0, payload[i].1, o))
  {
    seq(|payload|, i requires 0 <= i < |payload| => (payload[i].0, KeyEntry(kind, payload[i].0, payload[i].1, o)))
  }

  /** The state of the loop: the updates so far, which location-set keys
      were seen, and the last location-set value. */
  datatype Scan = Scan(updates: map<string, Value>, single: bool, plural: bool, storage: Any)

  const Together: Error := Message("storage_server and storage_servers cannot be used together")

  /** One turn of the loop. */
  function Step(st: Scan, e: Result<Entry>): Result<Scan>
  {
    match e
    case Err(err) => Err(err)
    case Ok(Assign(c, v)) => Ok(st.(updates := st.updates[c := v]))
    case Ok(StorageKey(plural, raw)) =>
      if (plural && st.single) || (!plural && st.plural) then Err(Together)
      else if plural then Ok(st.(plural := true, storage := raw))
      else Ok(st.(single := true, storage := raw))
  }

  /** The loop over the parsed members. */
  function Scanned(es: seq<(string, Result<Entry>)>): Result<Scan>
  {
    if es == [] then Ok(Scan(map[], false, false, Nil))
    else match Scanned(es[..|es| - 1])
      case Err(e) => Err(e)
      case Ok(st) => Step(st, es[|es| - 1].1)
  }

  /** After the loop: the location set, when one was given, is normalised
      into the storage_server column. */
  function Finish(st: Scan): Result<map<string, Value>>
  {
    if st.single || st.plural then
      match NormalizeStorageServerPatchValue(st.storage)
      case Err(e) => Err(e)
      case Ok(t) => Ok(st.updates[SingleKey := Text(t)])
    else if |st.updates| == 0 then Err(Message("no updatable fields provided"))
    else Ok(st.updates)
  }

  /** The loop and what follows it. */
  function ParsedUpdates(es: seq<(string, Result<Entry>)>): Result<map<string, Value>>
  {
    match Scanned(es)
    case Err(e) => Err(e)
    case Ok(st) => Finish(st)
  }

  /** parseModelMetadataUpdates / parseDatasetMetadataUpdates */
  function MetadataUpdates(kind: Dao.Kind, payload: seq<(string, Any)>, o: Oracles): Result<map<string, Value>>
  {
    if |payload| == 0 then Err(Message("request body is empty"))
    else ParsedUpdates(Entries(kind, payload, o))
  }

  /** The parsers' loop, key by key, with its flags and the update map. */
  method ParseMetadataUpdates(kind: Dao.Kind, payload: seq<(string, Any)>, o: Oracles)
    returns (r: Result<map<string, Value>>)
    ensures r == MetadataUpdates(kind, payload, o)
  {
    if |payload| == 0 {
      return Err(Message("request body is empty"));
    }
    ghost var es := Entries(kind, payload, o);
    var updates: map<string, Value> := map[];
    var hasSingle, hasPlural := false, false;
    var storageValue: Any := Nil;
    var i := 0;
    while i < |payload|
      invariant 0 <= i <= |payload|
      invariant Scanned(es[..i]) == Ok(Scan(updates, hasSingle, hasPlural, storageValue))
    {
      ghost var st := Scan(updates, hasSingle, hasPlural, storageValue);
      ScanNext(es, i);
      var (key, value) := payload[i];
      var entry := KeyEntry(kind, key, value, o);
      assert es[i].1 == entry;
      if entry.Err? {
        ScanErrorPersists(es, i + 1);
        return Err(entry.error);
      }
      match entry.value {
        case Assign(c, v) =>
          updates := updates[c := v];
        case StorageKey(plural, raw) =>
          if plural {
            if hasSingle {
              ScanErrorPersists(es, i + 1);
              return Err(Together);
            }
            hasPlural := true;
          } else {
            if hasPlural {
              ScanErrorPersists(es, i + 1);
              return Err(Together);
            }
            hasSingle := true;
          }
          storageValue := raw;
      }
      assert Step(st, entry) == Ok(Scan(updates, hasSingle, hasPlural, storageValue));
      i := i + 1;
    }
    assert es[..i] == es;
    if hasSingle || hasPlural {
      var normalized := NormalizeStorageServerPatchValue(storageValue);
      if normalized.Err? {
        return Err(normalized.error);
      }
      updates := updates[SingleKey := Text(normalized.value)];
    }
    if |updates| == 0 {
      return Err(Message("no updatable fields provided"));
    }
    return Ok(updates);
  }

  /** One more member is one more turn of the loop. */
  lemma ScanNext(es: seq<(string, Result<Entry>)>, i: nat)
    requires i < |es|
    ensures Scanned(es[..i + 1]) == (if Scanned(es[..i]).Err? then Scanned(es[..i]) else Step(Scanned(es[..i]).value, es[i].1))
  {
    assert es[..i + 1][..i] == es[..i];
    assert es[..i + 1][i] == es[i];
  }

  /** Once a member is refused, the members after it are not looked at. */
  lemma {:induction false} ScanErrorPersists(es: seq<(string, Result<Entry>)>, k: nat)
    requires k <= |es| && Scanned(es[..k]).Err?
    ensures Scanned(es) == Scanned(es[..k])
    decreases |es| - k
  {
    if k < |es| {
      var init := es[..|es| - 1];
      assert init[..k] == es[..k];
      ScanErrorPersists(init, k);
    } else {
      assert es[..k] == es;
    }
  }

  // ---------------------------------------------------------------- what holds in every order

  /** Some member asks for the single (or the plural) location-set key. */
  predicate HasStorage(es: seq<(string, Result<Entry>)>, plural: bool)
  {
    exists i :: 0 <= i < |es| && es[i].1.Ok? && es[i].1.value.StorageKey? && es[i].1.value.plural == plural
  }

  /** The loop gets through exactly when every member is accepted on its
      own and the two location-set keys are not both present. */
  lemma {:induction false} ScannedOk(es: seq<(string, Result<Entry>)>)
    ensures Scanned(es).Ok? <==>
              (forall i :: 0 <= i < |es| ==> es[i].1.Ok?) && !(HasStorage(es, false) && HasStorage(es, true))
    ensures Scanned(es).Ok? ==>
              (Scanned(es).value.single <==> HasStorage(es, false)) && (Scanned(es).value.plural <==> HasStorage(es, true))
  {
    if es != [] {
      var init := es[..|es| - 1];
      ScannedOk(init);
      assert forall i :: 0 <= i < |init| ==> init[i] == es[i];
      var last := es[|es| - 1].1;
      forall plural: bool
        ensures HasStorage(es, plural) <==>
                  HasStorage(init, plural) || (last.Ok? && last.value.StorageKey? && last.value.plural == plural)
      {
        if HasStorage(es, plural) {
          var i :| 0 <= i < |es| && es[i].1.Ok? && es[i].1.value.StorageKey? && es[i].1.value.plural == plural;
          if i < |init| {
            assert init[i] == es[i];
          }
        }
      }
    }
  }

  /** The updates the loop collects: the last value given for each column. */
  function Assigned(es: seq<(string, Result<Entry>)>): map<string, Value>
  {
    if es == [] then map[]
    else
      var rest := Assigned(es[..|es| - 1]);
      var e := es[|es| - 1].1;
      if e.Ok? && e.value.Assign? then rest[e.value.column := e.value.value] else rest
  }

  lemma {:induction false} ScannedUpdates(es: seq<(string, Result<Entry>)>)
    requires Scanned(es).Ok?
    ensures Scanned(es).value.updates == Assigned(es)
    ensures (Scanned(es).value.single || Scanned(es).value.plural)
            ==> exists i :: (0 <= i < |es| && es[i].1.Ok? && es[i].1.value.StorageKey?
                             && Scanned(es).value.storage == es[i].1.value.raw)
  {
    if es != [] {
      var init := es[..|es| - 1];
      ScannedUpdates(init);
      var st := Scanned(es).value;
      var last := es[|es| - 1].1;
      if (st.single || st.plural) && !last.value.StorageKey? {
        var i :| 0 <= i < |init| && init[i].1.Ok? && init[i].1.value.StorageKey?
                 && Scanned(init).value.storage == init[i].1.value.raw;
        assert es[i] == init[i];
      }
    }
  }

  /** Members whose columns are their own keys, whose location-set
      entries come from the two location-set keys, each key once. */
  predicate Keyed(es: seq<(string, Result<Entry>)>)
  {
    (forall i :: 0 <= i < |es| && es[i].1.Ok? && es[i].1.value.Assign?
                 ==> es[i].1.value.column == es[i].0 && es[i].0 != SingleKey)
    && (forall i :: 0 <= i < |es| && es[i].1.Ok? && es[i].1.value.StorageKey?
                    ==> es[i].0 == (if es[i].1.value.plural then PluralKey else SingleKey))
    && (forall i, j :: 0 <= i < j < |es| ==> es[i].0 != es[j].0)
  }

  /** With each key once, the collected keys are the column keys, each
      holding the value parsed from it. */
  lemma {:induction false} AssignedMeaning(es: seq<(string, Result<Entry>)>)
    requires Keyed(es)
    ensures forall c :: c in Assigned(es) <==>
              exists i :: 0 <= i < |es| && es[i].0 == c && es[i].1.Ok? && es[i].1.value.Assign?
    ensures forall i :: 0 <= i < |es| && es[i].1.Ok? && es[i].1.value.Assign?
              ==> Assigned(es)[es[i].0] == es[i].1.value.value
  {
    if es != [] {
      var n := |es| - 1;
      var init := es[..n];
      var last := es[n];
      KeyedPrefix(es);
      AssignedMeaning(init);
      var m := Assigned(init);
      assert Assigned(es) == if last.1.Ok? && last.1.value.Assign? then m[last.1.value.column := last.1.value.value] else m;
      forall c
        ensures c in Assigned(es) <==>
                exists i :: 0 <= i < |es| && es[i].0 == c && es[i].1.Ok? && es[i].1.value.Assign?
      {
        if c in m {
          var i :| 0 <= i < |init| && init[i].0 == c && init[i].1.Ok? && init[i].1.value.Assign?;
          assert es[i] == init[i];
        }
      }
      forall i | 0 <= i < |es| && es[i].1.Ok? && es[i].1.value.Assign?
        ensures Assigned(es)[es[i].0] == es[i].1.value.value
      {
        if i < n {
          assert init[i] == es[i];
          assert es[i].0 != last.0;
        }
      }
    }
  }

  lemma KeyedPrefix(es: seq<(string, Result<Entry>)>)
    requires Keyed(es) && es != []
    ensures Keyed(es[..|es| - 1])
    ensures forall i :: 0 <= i < |es| - 1 ==> es[..|es| - 1][i] == es[i]
  {
  }

  /** The columns of a successful parse hold the values parsed from their
      keys. */
  lemma ParsedValues(es: seq<(string, Result<Entry>)>)
    requires Keyed(es) && ParsedUpdates(es).Ok?
    ensures forall i :: 0 <= i < |es| && es[i].1.Ok? && es[i].1.value.Assign?
              ==> es[i].0 in ParsedUpdates(es).value && ParsedUpdates(es).value[es[i].0] == es[i].1.value.value
  {
    ScannedUpdates(es);
    AssignedMeaning(es);
  }

  /** A successful parse sets only columns named by keys, and
      storage_server. */
  lemma ParsedKeys(es: seq<(string, Result<Entry>)>)
    requires Keyed(es) && ParsedUpdates(es).Ok?
    ensures forall c :: c in ParsedUpdates(es).value ==> c == SingleKey || exists i :: 0 <= i < |es| && es[i].0 == c
  {
    ScannedUpdates(es);
    AssignedMeaning(es);
  }

  /** With each key once and the two location-set keys not both given,
      there is at most one location-set member. */
  lemma OneStorageEntry(es: seq<(string, Result<Entry>)>, i: nat, k: nat)
    requires Keyed(es) && !(HasStorage(es, false) && HasStorage(es, true))
    requires i < |es| && es[i].1.Ok? && es[i].1.value.StorageKey?
    requires k < |es| && es[k].1.Ok? && es[k].1.value.StorageKey?
    ensures i == k
  {
    assert HasStorage(es, es[i].1.value.plural);
    assert HasStorage(es, es[k].1.value.plural);
    assert es[i].1.value.plural == es[k].1.value.plural;
    assert es[i].0 == es[k].0;
  }

  /** The location-set value the loop keeps is the one given. */
  lemma ScannedStorage(es: seq<(string, Result<Entry>)>, i: nat)
    requires Keyed(es) && Scanned(es).Ok?
    requires i < |es| && es[i].1.Ok? && es[i].1.value.StorageKey?
    ensures Scanned(es).value.single || Scanned(es).value.plural
    ensures Scanned(es).value.storage == es[i].1.value.raw
  {
    ScannedOk(es);
    ScannedUpdates(es);
    assert HasStorage(es, es[i].1.value.plural);
    var k :| 0 <= k < |es| && es[k].1.Ok? && es[k].1.value.StorageKey?
             && Scanned(es).value.storage == es[k].1.value.raw;
    OneStorageEntry(es, i, k);
  }

  /** The location set given is the one stored, normalised. */
  lemma ParsedStorage(es: seq<(string, Result<Entry>)>, i: nat)
    requires Keyed(es) && ParsedUpdates(es).Ok?
    requires i < |es| && es[i].1.Ok? && es[i].1.value.StorageKey?
    ensures NormalizeStorageServerPatchValue(es[i].1.value.raw).Ok?
    ensures SingleKey in ParsedUpdates(es).value
    ensures ParsedUpdates(es).value[SingleKey] == Text(NormalizeStorageServerPatchValue(es[i].1.value.raw).value)
  {
    var st := Scanned(es).value;
    ScannedStorage(es, i);
    assert ParsedUpdates(es) == Finish(st);
  }

  /** storage_server is set exactly when a location set was given. */
  lemma ParsedStorageColumn(es: seq<(string, Result<Entry>)>)
    requires Keyed(es) && ParsedUpdates(es).Ok?
    ensures (HasStorage(es, false) || HasStorage(es, true)) <==> SingleKey in ParsedUpdates(es).value
  {
    var st := Scanned(es).value;
    assert ParsedUpdates(es) == Finish(st);
    ScannedOk(es);
    ScannedUpdates(es);
    AssignedMeaning(es);
  }

  /** After a successful loop over a non-empty body the only refusal left
      is the location set's own. */
  lemma ParsedRefusal(es: seq<(string, Result<Entry>)>)
    requires Keyed(es) && |es| > 0 && Scanned(es).Ok?
    ensures ParsedUpdates(es).Err? ==>
              exists i :: (0 <= i < |es| && es[i].1.Ok? && es[i].1.value.StorageKey?
                           && NormalizeStorageServerPatchValue(es[i].1.value.raw) == Err(ParsedUpdates(es).error))
  {
    var st := Scanned(es).value;
    assert ParsedUpdates(es) == Finish(st);
    ScannedOk(es);
    ScannedUpdates(es);
    if !st.single && !st.plural {
      assert es[0].1.Ok?;
      assert !es[0].1.value.StorageKey?;
      AssignedMeaning(es);
      assert es[0].0 in st.updates;
      assert |st.updates| > 0;
    }
  }

  /** A location set is never refused with the "no updatable fields"
      message. */
  lemma PatchRefusalText(value: Any)
    requires NormalizeStorageServerPatchValue(value).Err?
    ensures NormalizeStorageServerPatchValue(value).error != Message("no updatable fields provided")
  {
    if value.Array? {
      ItemServersMeaning(value.items);
      var k :| 0 <= k < |value.items| && !value.items[k].Str? && (forall i :: 0 <= i < k ==> value.items[i].Str?)
               && ItemServers(value.items).error == Message("storage_servers[" + DecimalText(k) + "] must be string");
      assert ("storage_servers[" + DecimalText(k) + "] must be string")[0] == 's';
    }
  }

  /** A Go map has each key once. */
  predicate DistinctKeys(payload: seq<(string, Any)>)
  {
    forall i, j :: 0 <= i < j < |payload| ==> payload[i].0 != payload[j].0
  }

  predicate HasKey(payload: seq<(string, Any)>, key: string)
  {
    exists i :: 0 <= i < |payload| && payload[i].0 == key
  }

  /** What the parsed members say about the body's keys. */
  lemma EntriesOfPayload(kind: Dao.Kind, payload: seq<(string, Any)>, o: Oracles)
    requires DistinctKeys(payload)
    ensures Keyed(Entries(kind, payload, o))
    ensures HasStorage(Entries(kind, payload, o), false) <==> HasKey(payload, SingleKey)
    ensures HasStorage(Entries(kind, payload, o), true) <==> HasKey(payload, PluralKey)
  {
    var es := Entries(kind, payload, o);
    forall i | 0 <= i < |es|
      ensures es[i].0 == payload[i].0 && EntryOfKey(es[i].0, es[i].1)
    {
      KeyEntryStorage(kind, payload[i].0, payload[i].1, o);
    }
    KeyedOfKeys(payload, es);
    StorageIffKey(payload, es, false, SingleKey);
    StorageIffKey(payload, es, true, PluralKey);
  }

  /** A member's entry as its key determines it: a column named by the
      key, or the location-set entry of exactly the two location-set
      keys. */
  predicate EntryOfKey(key: string, r: Result<Entry>)
  {
    && (r.Ok? && r.value.Assign? ==> r.value.column == key && key != SingleKey)
    && (r.Ok? && r.value.StorageKey? && !r.value.plural <==> key == SingleKey)
    && (r.Ok? && r.value.StorageKey? && r.value.plural <==> key == PluralKey)
  }

  lemma KeyEntryStorage(kind: Dao.Kind, key: string, value: Any, o: Oracles)
    ensures EntryOfKey(key, KeyEntry(kind, key, value, o))
  {
    assert SingleKey != PluralKey by {
      assert |SingleKey| != |PluralKey|;
    }
  }

  lemma KeyedOfKeys(payload: seq<(string, Any)>, es: seq<(string, Result<Entry>)>)
    requires DistinctKeys(payload) && |es| == |payload|
    requires forall i :: 0 <= i < |es| ==> es[i].0 == payload[i].0 && EntryOfKey(es[i].0, es[i].1)
    ensures Keyed(es)
  {
  }

  lemma StorageIffKey(payload: seq<(string, Any)>, es: seq<(string, Result<Entry>)>, plural: bool, key: string)
    requires |es| == |payload|
    requires forall i :: 0 <= i < |es| ==>
               es[i].0 == payload[i].0
               && (es[i].1.Ok? && es[i].1.value.StorageKey? && es[i].1.value.plural == plural <==> payload[i].0 == key)
    ensures HasStorage(es, plural) <==> HasKey(payload, key)
  {
    if HasKey(payload, key) {
      var i :| 0 <= i < |payload| && payload[i].0 == key;
      assert es[i].1.Ok? && es[i].1.value.StorageKey? && es[i].1.value.plural == plural;
    }
    if HasStorage(es, plural) {
      var i :| 0 <= i < |es| && es[i].1.Ok? && es[i].1.value.StorageKey? && es[i].1.value.plural == plural;
      assert payload[i].0 == key;
    }
  }

  /** A body gets through only when every key is accepted on its own and
      the two location-set keys are not both present. */
  lemma UpdatesAccepted(kind: Dao.Kind, payload: seq<(string, Any)>, o: Oracles)
    requires DistinctKeys(payload)
    requires MetadataUpdates(kind, payload, o).Ok?
    ensures forall i :: 0 <= i < |payload| ==> KeyEntry(kind, payload[i].0, payload[i].1, o).Ok?
    ensures !(HasKey(payload, SingleKey) && HasKey(payload, PluralKey))
  {
    var es := Entries(kind, payload, o);
    EntriesOfPayload(kind, payload, o);
    ScannedOk(es);
  }

  /** Every column key of a parsed body is set to the value parsed from
      it. */
  lemma UpdatesValues(kind: Dao.Kind, payload: seq<(string, Any)>, o: Oracles, i: nat)
    requires DistinctKeys(payload)
    requires MetadataUpdates(kind, payload, o).Ok?
    requires i < |payload| && KeyEntry(kind, payload[i].0, payload[i].1, o).Ok?
    requires KeyEntry(kind, payload[i].0, payload[i].1, o).value.Assign?
    ensures payload[i].0 in MetadataUpdates(kind, payload, o).value
    ensures MetadataUpdates(kind, payload, o).value[payload[i].0] == KeyEntry(kind, payload[i].0, payload[i].1, o).value.value
  {
    var es := Entries(kind, payload, o);
    EntriesOfPayload(kind, payload, o);
    ParsedValues(es);
    assert es[i].1.Ok? && es[i].1.value.Assign?;
  }

  /** A location-set key of a parsed body is stored as storage_server,
      normalised. */
  lemma UpdatesStorage(kind: Dao.Kind, payload: seq<(string, Any)>, o: Oracles, i: nat)
    requires DistinctKeys(payload)
    requires MetadataUpdates(kind, payload, o).Ok?
    requires i < |payload| && payload[i].0 in {SingleKey, PluralKey}
    ensures NormalizeStorageServerPatchValue(payload[i].1).Ok?
    ensures SingleKey in MetadataUpdates(kind, payload, o).value
    ensures MetadataUpdates(kind, payload, o).value[SingleKey] == Text(NormalizeStorageServerPatchValue(payload[i].1).value)
  {
    var es := Entries(kind, payload, o);
    EntriesOfPayload(kind, payload, o);
    StorageEntryAt(kind, payload, o, i);
    assert MetadataUpdates(kind, payload, o) == ParsedUpdates(es);
    ParsedStorage(es, i);
  }

  lemma StorageEntryAt(kind: Dao.Kind, payload: seq<(string, Any)>, o: Oracles, i: nat)
    requires i < |payload| && payload[i].0 in {SingleKey, PluralKey}
    ensures Entries(kind, payload, o)[i].1 == Ok(StorageKey(payload[i].0 == PluralKey, payload[i].1))
  {
  }

  /** storage_server is set exactly when a location-set key was given. */
  lemma StorageColumnSet(kind: Dao.Kind, payload: seq<(string, Any)>, o: Oracles)
    requires DistinctKeys(payload)
    requires MetadataUpdates(kind, payload, o).Ok?
    ensures (HasKey(payload, SingleKey) || HasKey(payload, PluralKey)) <==> SingleKey in MetadataUpdates(kind, payload, o).value
  {
    EntriesOfPayload(kind, payload, o);
    ParsedStorageColumn(Entries(kind, payload, o));
  }

  /** A successful parse sets no column the body did not name, apart from
      storage_server. */
  lemma UpdatesKeys(kind: Dao.Kind, payload: seq<(string, Any)>, o: Oracles)
    requires DistinctKeys(payload)
    requires MetadataUpdates(kind, payload, o).Ok?
    ensures forall c :: c in MetadataUpdates(kind, payload, o).value ==>
              c == SingleKey || exists i :: 0 <= i < |payload| && payload[i].0 == c
  {
    var es := Entries(kind, payload, o);
    EntriesOfPayload(kind, payload, o);
    ParsedKeys(es);
    forall c | c in MetadataUpdates(kind, payload, o).value && c != SingleKey
      ensures exists i :: 0 <= i < |payload| && payload[i].0 == c
    {
      var i :| 0 <= i < |es| && es[i].0 == c;
      assert payload[i].0 == c;
    }
  }

  /** An immutable key is refused, whatever else the body holds and
      whatever order its members are visited in. */
  lemma ImmutableRefused(kind: Dao.Kind, payload: seq<(string, Any)>, o: Oracles, i: nat)
    requires i < |payload| && payload[i].0 in Immutable(kind)
    ensures MetadataUpdates(kind, payload, o).Err?
  {
    var es := Entries(kind, payload, o);
    ScannedOk(es);
    assert es[i].1.Err?;
  }

  /** An unknown key is refused in every order. */
  lemma UnknownRefused(kind: Dao.Kind, payload: seq<(string, Any)>, o: Oracles, i: nat)
    requires i < |payload| && payload[i].0 !in Known(kind)
    ensures MetadataUpdates(kind, payload, o).Err?
  {
    var es := Entries(kind, payload, o);
    ScannedOk(es);
    assert es[i].1.Err?;
  }

  /** storage_server and storage_servers together are refused in every
      order. */
  lemma BothStorageKeysRefused(kind: Dao.Kind, payload: seq<(string, Any)>, o: Oracles)
    requires DistinctKeys(payload)
    requires HasKey(payload, SingleKey) && HasKey(payload, PluralKey)
    ensures MetadataUpdates(kind, payload, o).Err?
  {
    EntriesOfPayload(kind, payload, o);
    ScannedOk(Entries(kind, payload, o));
  }

  /** The loop refuses a body only for a key refused on its own or for
      the two location-set keys together. */
  lemma {:induction false} ScanRefusal(es: seq<(string, Result<Entry>)>)
    requires Scanned(es).Err?
    ensures Scanned(es).error == Together
            || exists i :: 0 <= i < |es| && es[i].1 == Err(Scanned(es).error)
  {
    var init := es[..|es| - 1];
    if Scanned(init).Err? {
      ScanRefusal(init);
      if Scanned(init).error != Together {
        var i :| 0 <= i < |init| && init[i].1 == Err(Scanned(init).error);
        assert es[i] == init[i];
      }
    }
  }

  /** A body is refused for one of four reasons only: it is empty, one
      of its keys is refused on its own, it holds both location-set keys,
      or its location set is refused. */
  lemma RefusalReasons(kind: Dao.Kind, payload: seq<(string, Any)>, o: Oracles)
    requires DistinctKeys(payload)
    requires MetadataUpdates(kind, payload, o).Err?
    ensures |payload| == 0 ==> MetadataUpdates(kind, payload, o).error == Message("request body is empty")
    ensures |payload| > 0 ==>
              var e := MetadataUpdates(kind, payload, o).error;
              e == Together
              || (exists i :: 0 <= i < |payload| && KeyEntry(kind, payload[i].0, payload[i].1, o) == Err(e))
              || (exists i :: (0 <= i < |payload| && payload[i].0 in {SingleKey, PluralKey}
                               && NormalizeStorageServerPatchValue(payload[i].1) == Err(e)))
  {
    if |payload| > 0 {
      var es := Entries(kind, payload, o);
      EntriesOfPayload(kind, payload, o);
      var e := MetadataUpdates(kind, payload, o).error;
      assert MetadataUpdates(kind, payload, o) == ParsedUpdates(es);
      if Scanned(es).Ok? {
        ParsedRefusal(es);
        var i :| 0 <= i < |es| && es[i].1.Ok? && es[i].1.value.StorageKey?
                 && NormalizeStorageServerPatchValue(es[i].1.value.raw) == Err(e);
        assert payload[i].0 in {SingleKey, PluralKey} && payload[i].1 == es[i].1.value.raw;
      } else {
        ScanRefusal(es);
        if e != Together {
          var i :| 0 <= i < |es| && es[i].1 == Err(e);
          assert KeyEntry(kind, payload[i].0, payload[i].1, o) == Err(e);
        }
      }
    }
  }

  /** A non-empty body whose keys are all accepted never gets the "no
      updatable fields provided" refusal. */
  lemma NeverNoFields(kind: Dao.Kind, payload: seq<(string, Any)>, o: Oracles)
    requires DistinctKeys(payload)
    requires |payload| > 0
    requires forall i :: 0 <= i < |payload| ==> KeyEntry(kind, payload[i].0, payload[i].1, o).Ok?
    ensures MetadataUpdates(kind, payload, o) != Err(Message("no updatable fields provided"))
  {
    if MetadataUpdates(kind, payload, o).Err? {
      RefusalReasons(kind, payload, o);
      var e := MetadataUpdates(kind, payload, o).error;
      if e != Together {
        var i :| (0 <= i < |payload| && payload[i].0 in {SingleKey, PluralKey}
                  && NormalizeStorageServerPatchValue(payload[i].1) == Err(e));
        PatchRefusalText(payload[i].1);
      }
    }
  }

  /** What the record services do next to a parsed patch changes nothing:
      the file name is already a usable base name, and the location set is
      already in normal form. */
  lemma ServicesAcceptPatch(kind: Dao.Kind, payload: seq<(string, Any)>, o: Oracles)
    requires DistinctKeys(payload)
    requires MetadataUpdates(kind, payload, o).Ok?
    ensures Dao.FileColumn(kind) in MetadataUpdates(kind, payload, o).value ==>
              MetadataUpdates(kind, payload, o).value[Dao.FileColumn(kind)].Text?
              && IsPlainName(MetadataUpdates(kind, payload, o).value[Dao.FileColumn(kind)].s)
    ensures SingleKey in MetadataUpdates(kind, payload, o).value ==>
              MetadataUpdates(kind, payload, o).value[SingleKey].Text?
              && FieldValue(MetadataUpdates(kind, payload, o).value[SingleKey].s) == MetadataUpdates(kind, payload, o).value[SingleKey].s
  {
    var u := MetadataUpdates(kind, payload, o).value;
    UpdatesKeys(kind, payload, o);
    if Dao.FileColumn(kind) in u {
      var i :| 0 <= i < |payload| && payload[i].0 == Dao.FileColumn(kind);
      UpdatesAccepted(kind, payload, o);
      UpdatesValues(kind, payload, o, i);
    }
    if SingleKey in u {
      StorageColumnSet(kind, payload, o);
      var i :| 0 <= i < |payload| && payload[i].0 in {SingleKey, PluralKey};
      UpdatesStorage(kind, payload, o, i);
      PatchReadsBack(payload[i].1);
    }
  }
}
