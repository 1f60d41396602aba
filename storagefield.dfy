/** service/storage_server_utils.go: the service layer's own normalisation of
    a storage_server column value, written as JSON array text. */
module StorageField {
  import opened GoStrings
  import opened Json
  import opened LocationSet

  /** normalizeStorageServerField: blank text becomes "[]"; otherwise the
      text is read as a JSON string array, else as one JSON string, else as
      one raw entry, and the normalised list is written back as JSON. */
  method NormalizeStorageServerField(raw: string) returns (r: string)
    ensures IsBlank(raw) ==> r == "[]"
    ensures r == FieldValue(raw)
    ensures r == EncodeStorageServerValue(ParseStorageServerValue(raw))
  {
    var value := TrimSpace(raw);
    if value == "" {
      return "[]";
    }
    var servers: seq<string>;
    match DecodeStringArray(value) {
      case Some(arr) =>
        servers := arr;
      case None =>
        match DecodeString(value) {
          case Some(single) =>
            servers := [single];
          case None =>
            servers := [value];
        }
    }
    var normalized := NormalizeServers(servers);
    r := EncodeArray(normalized);
    NormalizeOfClean(ParseStorageServerValue(raw));
  }

  /** What normalizeStorageServerField returns, as a value. */
  function FieldValue(raw: string): string
  {
    EncodeArray(ParseStorageServerValue(raw))
  }

  /** Normalising a normalised column value leaves it unchanged. */
  lemma FieldIdempotent(raw: string)
    ensures FieldValue(FieldValue(raw)) == FieldValue(raw)
  {
    var xs := ParseStorageServerValue(raw);
    NormalizeOfClean(xs);
    ParseEncodeRoundTrip(xs);
  }

  /** Reading the normalised column value back gives the list it encodes,
      and it holds each entry of the parsed input once. */
  lemma FieldReadsBack(raw: string)
    ensures ParseStorageServerValue(FieldValue(raw)) == ParseStorageServerValue(raw)
  {
    var xs := ParseStorageServerValue(raw);
    NormalizeOfClean(xs);
    ParseEncodeRoundTrip(xs);
  }
}
