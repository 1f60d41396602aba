/** The record store: the models and datasets tables, the name derivation
    and location-set read-modify-write their data-access objects perform,
    and the query plan of their list operations.  A table is a map from
    primary key to row; SQL itself is not modelled. */
module Dao {
  import opened Wrappers
  import opened GoStrings
  import opened GoPath
  import opened LocationSet
  import opened Pagination
  import opened ArtifactPaths
  import opened Values

  /** Which table: ModelDAO works on models, DatasetDAO on datasets. */
  datatype Kind = ModelKind | DatasetKind

  function Noun(kind: Kind): string
  {
    if kind == ModelKind then "model" else "dataset"
  }

  /** The column holding the artifact's file name. */
  function FileColumn(kind: Kind): string
  {
    if kind == ModelKind then "weight_name" else "file_name"
  }

  /** The column holding the artifact's size in MB. */
  function SizeColumn(kind: Kind): string
  {
    if kind == ModelKind then "weight_size_mb" else "size_mb"
  }

  const StorageColumn: string := "storage_server"

  /** A stored row: its columns by name; a column that is absent is NULL. */
  datatype Row = Row(cols: map<string, Value>)

  function Column(row: Row, col: string): Value
  {
    if col in row.cols then row.cols[col] else Null
  }

  /** A column read into a Go string: NULL and non-text values read as "". */
  function TextColumn(row: Row, col: string): string
  {
    match Column(row, col)
    case Text(s) => s
    case _ => ""
  }

  // ---------------------------------------------------------------------
  // Save: the file name a record is stored under

  /** The name Save stores: the trimmed base name of the file name; for a
      model whose name is unusable, the trimmed base name of the trimmed
      legacy file name; then the trimmed base name of the legacy path with
      '\' read as '/'.  None when no tier gives a usable name. */
  function SaveFileName(kind: Kind, fileName: string, legacyFileName: string, legacyPath: string): (r: Option<string>)
    ensures r.Some? ==> IsPlainName(r.value)
    ensures NormalizeArtifactFileName(fileName).Ok? ==> r == Some(NormalizeArtifactFileName(fileName).value)
  {
    var first := NormalizeArtifactFileName(fileName);
    var second :=
      if first.Err? && kind == ModelKind && TrimSpace(legacyFileName) != ""
      then NormalizeArtifactFileName(TrimSpace(legacyFileName))
      else first;
    var legacy := TrimSpace(BackslashToSlash(legacyPath));
    var third := if second.Err? && legacy != "" then NormalizeArtifactFileName(legacy) else second;
    NormalizedIsPlain(fileName);
    NormalizedIsPlain(TrimSpace(legacyFileName));
    NormalizedIsPlain(legacy);
    if third.Ok? then Some(third.value) else None
  }

  /** A name that is already plain is stored as it is, whatever the legacy
      fields say: this is what makes Save accept the name the services
      derive. */
  lemma SaveKeepsPlainName(kind: Kind, name: string, legacyFileName: string, legacyPath: string)
    requires IsPlainName(name)
    ensures SaveFileName(kind, name, legacyFileName, legacyPath) == Some(name)
  {
    PlainNameAccepted(name);
  }

  /** A model with no usable weight name falls back to its legacy file
      name before its legacy path. */
  lemma SavePrefersLegacyFileName(fileName: string, legacyFileName: string, legacyPath: string)
    requires NormalizeArtifactFileName(fileName).Err?
    requires IsPlainName(legacyFileName)
    ensures SaveFileName(ModelKind, fileName, legacyFileName, legacyPath) == Some(legacyFileName)
  {
    TrimSpaceOfTrimmed(legacyFileName);
    PlainNameAccepted(legacyFileName);
  }

  /** The legacy file name is a model field: a dataset goes straight from
      its file name to its path. */
  lemma DatasetIgnoresLegacyFileName(fileName: string, legacyFileName: string, legacyPath: string)
    ensures SaveFileName(DatasetKind, fileName, legacyFileName, legacyPath)
         == SaveFileName(DatasetKind, fileName, "", legacyPath)
  {
  }

  /** With no usable name at all, the base name of the legacy path is used. */
  lemma SaveFromLegacyPath(kind: Kind, legacyDir: string, name: string)
    requires IsPlainName(name) && '\\' !in name && '\\' !in legacyDir
    requires legacyDir == "" || !IsSpace(legacyDir[0])
    ensures SaveFileName(kind, "", "", legacyDir + "/" + name) == Some(name)
  {
    var legacy := legacyDir + "/" + name;
    EmptyNameRefused();
    LegacyPathUnchanged(legacyDir, name);
    NameBelowAccepted(legacyDir, name);
    SaveFromLegacy(kind, "", "", legacy, name);
  }

  /** With no usable name and no model legacy file name, the legacy path
      decides. */
  lemma SaveFromLegacy(kind: Kind, fileName: string, legacyFileName: string, legacyPath: string, name: string)
    requires NormalizeArtifactFileName(fileName).Err? && TrimSpace(legacyFileName) == ""
    requires TrimSpace(BackslashToSlash(legacyPath)) != ""
    requires NormalizeArtifactFileName(TrimSpace(BackslashToSlash(legacyPath))) == Ok(name)
    ensures SaveFileName(kind, fileName, legacyFileName, legacyPath) == Some(name)
  {
  }

  lemma EmptyNameRefused()
    ensures NormalizeArtifactFileName("").Err?
  {
    assert Base("") == ".";
    assert TrimSpace(".") == ".";
  }

  /** A legacy path with no backslash and no surrounding space is read as
      it is. */
  lemma LegacyPathUnchanged(legacyDir: string, name: string)
    requires IsPlainName(name) && '\\' !in name && '\\' !in legacyDir
    requires legacyDir == "" || !IsSpace(legacyDir[0])
    ensures TrimSpace(BackslashToSlash(legacyDir + "/" + name)) == legacyDir + "/" + name
  {
    var legacy := legacyDir + "/" + name;
    BackslashFree(legacy);
    assert legacy[|legacy| - 1] == name[|name| - 1];
    assert legacy[0] == (if legacyDir == "" then '/' else legacyDir[0]);
    TrimSpaceOfTrimmed(legacy);
  }

  /** A model or dataset entity as the services hand it to Save: fileName
      is WeightName or FileName, legacyFileName is the model's
      LegacyFileName, legacyPath is LegacyModelPath or DatasetPath. */
  class Record {
    var id: nat
    var name: string
    var version: Value
    var fileName: string
    var legacyFileName: string
    var legacyPath: string
    var storageServer: string
    var size: real

    constructor (name: string, version: Value, fileName: string, legacyFileName: string,
                 legacyPath: string, storageServer: string, size: real)
      ensures this.id == 0 && this.name == name && this.version == version
      ensures this.fileName == fileName && this.legacyFileName == legacyFileName
      ensures this.legacyPath == legacyPath && this.storageServer == storageServer
      ensures this.size == size
    {
      this.id := 0;
      this.name := name;
      this.version := version;
      this.fileName := fileName;
      this.legacyFileName := legacyFileName;
      this.legacyPath := legacyPath;
      this.storageServer := storageServer;
      this.size := size;
    }
  }

  /** The columns Save writes for an entity. */
  function Columns(kind: Kind, rec: Record): map<string, Value>
    reads rec`name, rec`version, rec`fileName, rec`storageServer, rec`size
  {
    map["name" := Text(rec.name), "version" := rec.version,
        FileColumn(kind) := Text(rec.fileName), StorageColumn := Text(rec.storageServer),
        SizeColumn(kind) := Real(rec.size)]
  }

  /** Reading back a row Save wrote, over whatever the row held before. */
  lemma ColumnsWritten(kind: Kind, rec: Record, before: map<string, Value>)
    ensures var row := Row(before + Columns(kind, rec));
      && Column(row, FileColumn(kind)) == Text(rec.fileName)
      && Column(row, StorageColumn) == Text(rec.storageServer)
      && Column(row, SizeColumn(kind)) == Real(rec.size)
      && Column(row, "name") == Text(rec.name)
      && Column(row, "version") == rec.version
  {
    var m := Columns(kind, rec);
    assert FileColumn(kind) in m && StorageColumn in m && SizeColumn(kind) in m;
    assert m[SizeColumn(kind)] == Real(rec.size);
    assert m[StorageColumn] == Text(rec.storageServer) by {
      assert StorageColumn != SizeColumn(kind);
    }
    assert m[FileColumn(kind)] == Text(rec.fileName) by {
      assert FileColumn(kind) != SizeColumn(kind) && FileColumn(kind) != StorageColumn;
    }
    assert m["version"] == rec.version by {
      assert "version" != SizeColumn(kind) && "version" != StorageColumn && "version" != FileColumn(kind);
    }
    assert m["name"] == Text(rec.name) by {
      assert "name" != SizeColumn(kind) && "name" != StorageColumn && "name" != FileColumn(kind) && "name" != "version";
    }
  }

  /** The unique key of the models table: (name, version). */
  predicate SameKey(row: Row, name: string, version: Value)
  {
    Column(row, "name") == Text(name) && Column(row, "version") == version
  }

  // ---------------------------------------------------------------------
  // FindByName: the order of the models query

  /** "version DESC, id DESC": row a comes before row b when its version
      is greater as a string, or the same with a greater id. */
  predicate TakenBefore(rows: map<nat, Row>, a: nat, b: nat)
    requires a in rows && b in rows
  {
    var va := TextColumn(rows[a], "version");
    var vb := TextColumn(rows[b], "version");
    Below(vb, va) || (va == vb && b < a)
  }

  /** k is the first of the rows s in that order. */
  predicate First(rows: map<nat, Row>, s: set<nat>, k: nat)
    requires s <= rows.Keys
  {
    k in s && forall j :: j in s && j != k ==> TakenBefore(rows, k, j)
  }

  lemma TakenBeforeTransitive(rows: map<nat, Row>, a: nat, b: nat, c: nat)
    requires a in rows && b in rows && c in rows
    requires TakenBefore(rows, a, b) && TakenBefore(rows, b, c)
    ensures TakenBefore(rows, a, c)
  {
    var va, vb, vc := TextColumn(rows[a], "version"), TextColumn(rows[b], "version"), TextColumn(rows[c], "version");
    if Below(vb, va) && Below(vc, vb) {
      BelowTransitive(vc, vb, va);
    }
  }

  lemma TakenBeforeTotal(rows: map<nat, Row>, a: nat, b: nat)
    requires a in rows && b in rows && a != b
    ensures TakenBefore(rows, a, b) || TakenBefore(rows, b, a)
  {
    var va, vb := TextColumn(rows[a], "version"), TextColumn(rows[b], "version");
    if va != vb {
      BelowTotal(va, vb);
    }
  }

  /** Row id comes first among the rows named name. */
  predicate TakenFirst(rows: map<nat, Row>, id: nat, name: string)
    requires id in rows
  {
    forall k :: k in rows && k != id && Column(rows[k], "name") == Text(name) ==> TakenBefore(rows, id, k)
  }

  /** The first row is unique: the order decides every pair of rows. */
  lemma FirstUnique(rows: map<nat, Row>, s: set<nat>, a: nat, b: nat)
    requires s <= rows.Keys && First(rows, s, a) && First(rows, s, b)
    ensures a == b
  {
    if a != b {
      TakenBeforeTransitive(rows, a, b, a);
      BelowIrreflexive(TextColumn(rows[a], "version"));
      assert false;
    }
  }

  /** Every non-empty set of rows has a first row. */
  lemma {:induction false} FirstExists(rows: map<nat, Row>, s: set<nat>)
    requires s != {} && s <= rows.Keys
    ensures exists k :: First(rows, s, k)
    decreases |s|
  {
    var x :| x in s;
    if s == {x} {
      assert First(rows, s, x);
    } else {
      var rest := s - {x};
      FirstExists(rows, rest);
      var m :| First(rows, rest, m);
      if TakenBefore(rows, x, m) {
        forall j | j in s && j != x
          ensures TakenBefore(rows, x, j)
        {
          if j != m {
            TakenBeforeTransitive(rows, x, m, j);
          }
        }
        assert First(rows, s, x);
      } else {
        TakenBeforeTotal(rows, x, m);
        assert First(rows, s, m);
      }
    }
  }

  // ---------------------------------------------------------------------
  // FindAll: the query plan

  /** The list parameters of entity.QueryParams that the two FindAll
      operations read. */
  datatype ListParams = ListParams(
    page: int, pageSize: int, keyword: string, name: string, storageServer: string,
    taskType: string, algorithmID: string, implType: string, algorithm: string,
    framework: string, version: string, baseModelID: Option<nat>,
    sizeSort: string, weightSort: string,
    datasetFormat: string, configPath: string, numClasses: Option<nat>, datasetType: Option<int>)

  /** One WHERE condition. */
  datatype Filter =
    | Like(keyword: string)            // name or description contains the keyword
    | Equals(column: string, value: string)
    | HoldsServer(server: string)       // the column is the label, or a JSON array holding it
    | EqualsId(column: string, id: nat)

  /** A query: its conditions in order, its ORDER BY, OFFSET and LIMIT. */
  datatype ListQuery = ListQuery(filters: seq<Filter>, order: string, offset: int, limit: int)

  /** The sort direction asked for: size_sort, else the legacy weight_sort,
      trimmed and in lower case. */
  function SortValue(p: ListParams): string
  {
    var s := LowerTrim(p.sizeSort);
    if s == "" then LowerTrim(p.weightSort) else s
  }

  /** The ORDER BY clause: by size when the direction is "asc" or "desc",
      otherwise newest id first. */
  function OrderBy(kind: Kind, p: ListParams): (r: string)
    ensures r in {"id DESC", SizeColumn(kind) + " ASC", SizeColumn(kind) + " DESC"}
  {
    var v := SortValue(p);
    if v == "asc" then SizeColumn(kind) + " ASC"
    else if v == "desc" then SizeColumn(kind) + " DESC"
    else "id DESC"
  }

  /** The algorithm filter: algorithm_id, else the legacy impl_type, else
      the legacy algorithm parameter. */
  function AlgorithmFilter(p: ListParams): string
  {
    var a := TrimSpace(p.algorithmID);
    var b := if a == "" then TrimSpace(p.implType) else a;
    if b == "" then TrimSpace(p.algorithm) else b
  }

  /** mapDatasetTypeToTaskType: the legacy dataset types 1 to 5. */
  function MapDatasetTypeToTaskType(datasetType: int): (r: string)
    ensures r != ""
    ensures (1 <= datasetType <= 5) <==> r != "unknown"
  {
    if datasetType == 1 then "detect"
    else if datasetType == 2 then "segment"
    else if datasetType == 3 then "classify"
    else if datasetType == 4 then "pose"
    else if datasetType == 5 then "obb"
    else "unknown"
  }

  /** The task-type filter of the datasets list: task_type, else the task
      type the legacy dataset_type maps to. */
  function DatasetTaskType(p: ListParams): string
  {
    var t := TrimSpace(p.taskType);
    if t != "" then t
    else if p.datasetType.Some? then MapDatasetTypeToTaskType(p.datasetType.value)
    else ""
  }

  function When(c: bool, f: Filter): seq<Filter>
  {
    if c then [f] else []
  }

  /** The conditions of the models list, in the order they are added. */
  function ModelFilters(p: ListParams): seq<Filter>
  {
    When(TrimSpace(p.keyword) != "", Like(TrimSpace(p.keyword)))
    + When(TrimSpace(p.name) != "", Equals("name", TrimSpace(p.name)))
    + When(TrimSpace(p.storageServer) != "", HoldsServer(TrimSpace(p.storageServer)))
    + When(TrimSpace(p.taskType) != "", Equals("task_type", TrimSpace(p.taskType)))
    + When(AlgorithmFilter(p) != "", Equals("algorithm_id", AlgorithmFilter(p)))
    + When(TrimSpace(p.framework) != "", Equals("framework", TrimSpace(p.framework)))
    + When(TrimSpace(p.version) != "", Equals("version", TrimSpace(p.version)))
    + When(p.baseModelID.Some?, EqualsId("base_model_id", if p.baseModelID.Some? then p.baseModelID.value else 0))
  }

  /** The conditions of the datasets list, in the order they are added. */
  function DatasetFilters(p: ListParams): seq<Filter>
  {
    When(TrimSpace(p.keyword) != "", Like(TrimSpace(p.keyword)))
    + When(TrimSpace(p.name) != "", Equals("name", TrimSpace(p.name)))
    + When(TrimSpace(p.storageServer) != "", HoldsServer(TrimSpace(p.storageServer)))
    + When(DatasetTaskType(p) != "", Equals("task_type", DatasetTaskType(p)))
    + When(TrimSpace(p.datasetFormat) != "", Equals("dataset_format", TrimSpace(p.datasetFormat)))
    + When(TrimSpace(p.configPath) != "", Equals("config_path", TrimSpace(p.configPath)))
    + When(TrimSpace(p.version) != "", Equals("version", TrimSpace(p.version)))
    + When(p.numClasses.Some?, EqualsId("num_classes", if p.numClasses.Some? then p.numClasses.value else 0))
  }

  function Filters(kind: Kind, p: ListParams): seq<Filter>
  {
    if kind == ModelKind then ModelFilters(p) else DatasetFilters(p)
  }

  /** A condition that does not compare a column adds no comparison of it. */
  lemma WhenOther(c: bool, f: Filter, column: string)
    requires !f.Equals? || f.column != column
    ensures forall v :: Equals(column, v) !in When(c, f)
  {
  }

  /** size_sort decides the order whenever it is given; weight_sort is read
      only when size_sort is blank. */
  lemma SizeSortOverridesWeightSort(kind: Kind, p: ListParams, weightSort: string)
    requires LowerTrim(p.sizeSort) != ""
    ensures OrderBy(kind, p) == OrderBy(kind, p.(weightSort := weightSort))
  {
  }

  /** Only "asc" and "desc", in any case, sort by size. */
  lemma OrderBySize(kind: Kind, p: ListParams)
    ensures OrderBy(kind, p) == SizeColumn(kind) + " ASC" <==> SortValue(p) == "asc"
    ensures OrderBy(kind, p) == SizeColumn(kind) + " DESC" <==> SortValue(p) == "desc"
    ensures OrderBy(kind, p) == "id DESC" <==> SortValue(p) !in {"asc", "desc"}
  {
    assert SizeColumn(kind)[0] != 'i';
  }

  /** The models list compares algorithm_id with the first non-blank of
      algorithm_id, impl_type and algorithm, and does not compare it at all
      when all three are blank. */
  lemma ModelAlgorithmFilter(p: ListParams)
    ensures forall v :: Equals("algorithm_id", v) in ModelFilters(p) <==> AlgorithmFilter(p) != "" && v == AlgorithmFilter(p)
  {
    var before := When(TrimSpace(p.keyword) != "", Like(TrimSpace(p.keyword)))
      + When(TrimSpace(p.name) != "", Equals("name", TrimSpace(p.name)))
      + When(TrimSpace(p.storageServer) != "", HoldsServer(TrimSpace(p.storageServer)))
      + When(TrimSpace(p.taskType) != "", Equals("task_type", TrimSpace(p.taskType)));
    assert forall v :: Equals("algorithm_id", v) !in before by {
      WhenOther(TrimSpace(p.keyword) != "", Like(TrimSpace(p.keyword)), "algorithm_id");
      WhenOther(TrimSpace(p.name) != "", Equals("name", TrimSpace(p.name)), "algorithm_id");
      WhenOther(TrimSpace(p.storageServer) != "", HoldsServer(TrimSpace(p.storageServer)), "algorithm_id");
      WhenOther(TrimSpace(p.taskType) != "", Equals("task_type", TrimSpace(p.taskType)), "algorithm_id");
    }
    var a := AlgorithmFilter(p);
    var f8 := EqualsId("base_model_id", if p.baseModelID.Some? then p.baseModelID.value else 0);
    OnlyHere(before, a != "", a, "algorithm_id");
    WhenOther(TrimSpace(p.framework) != "", Equals("framework", TrimSpace(p.framework)), "algorithm_id");
    WhenOther(TrimSpace(p.version) != "", Equals("version", TrimSpace(p.version)), "algorithm_id");
    WhenOther(p.baseModelID.Some?, f8, "algorithm_id");
    OthersAfter3(before + When(a != "", Equals("algorithm_id", a)),
                 When(TrimSpace(p.framework) != "", Equals("framework", TrimSpace(p.framework))),
                 When(TrimSpace(p.version) != "", Equals("version", TrimSpace(p.version))),
                 When(p.baseModelID.Some?, f8), "algorithm_id", a != "", a);
  }

  /** A column compared by one condition only is compared with that
      condition's value, and only when the condition is added. */
  lemma OnlyHere(before: seq<Filter>, c: bool, x: string, column: string)
    requires forall v :: Equals(column, v) !in before
    ensures forall v :: Equals(column, v) in before + When(c, Equals(column, x)) <==> c && v == x
  {
  }

  /** Conditions on other columns added later change nothing for it. */
  lemma OthersAfter3(fs: seq<Filter>, w1: seq<Filter>, w2: seq<Filter>, w3: seq<Filter>,
                     column: string, holds: bool, x: string)
    requires forall v :: Equals(column, v) in fs <==> holds && v == x
    requires forall v :: Equals(column, v) !in w1
    requires forall v :: Equals(column, v) !in w2
    requires forall v :: Equals(column, v) !in w3
    ensures forall v :: Equals(column, v) in fs + w1 + w2 + w3 <==> holds && v == x
  {
  }

  /** The datasets list compares task_type with the explicit task type when
      one is given, else with the mapped legacy dataset type; a mapped type
      is never blank, so an unknown dataset type filters on "unknown". */
  lemma DatasetTaskTypeFilter(p: ListParams)
    ensures forall v :: Equals("task_type", v) in DatasetFilters(p) <==> DatasetTaskType(p) != "" && v == DatasetTaskType(p)
    ensures TrimSpace(p.taskType) != "" ==> DatasetTaskType(p) == TrimSpace(p.taskType)
    ensures (TrimSpace(p.taskType) == "" && p.datasetType.Some? && !(1 <= p.datasetType.value <= 5))
            ==> Equals("task_type", "unknown") in DatasetFilters(p)
  {
    var before := When(TrimSpace(p.keyword) != "", Like(TrimSpace(p.keyword)))
      + When(TrimSpace(p.name) != "", Equals("name", TrimSpace(p.name)))
      + When(TrimSpace(p.storageServer) != "", HoldsServer(TrimSpace(p.storageServer)));
    assert forall v :: Equals("task_type", v) !in before by {
      WhenOther(TrimSpace(p.keyword) != "", Like(TrimSpace(p.keyword)), "task_type");
      WhenOther(TrimSpace(p.name) != "", Equals("name", TrimSpace(p.name)), "task_type");
      WhenOther(TrimSpace(p.storageServer) != "", HoldsServer(TrimSpace(p.storageServer)), "task_type");
    }
    var t := DatasetTaskType(p);
    var f8 := EqualsId("num_classes", if p.numClasses.Some? then p.numClasses.value else 0);
    OnlyHere(before, t != "", t, "task_type");
    WhenOther(TrimSpace(p.datasetFormat) != "", Equals("dataset_format", TrimSpace(p.datasetFormat)), "task_type");
    WhenOther(TrimSpace(p.configPath) != "", Equals("config_path", TrimSpace(p.configPath)), "task_type");
    WhenOther(TrimSpace(p.version) != "", Equals("version", TrimSpace(p.version)), "task_type");
    WhenOther(p.numClasses.Some?, f8, "task_type");
    OthersAfter3(before + When(t != "", Equals("task_type", t))
                   + When(TrimSpace(p.datasetFormat) != "", Equals("dataset_format", TrimSpace(p.datasetFormat))),
                 When(TrimSpace(p.configPath) != "", Equals("config_path", TrimSpace(p.configPath))),
                 When(TrimSpace(p.version) != "", Equals("version", TrimSpace(p.version))),
                 When(p.numClasses.Some?, f8), "task_type", t != "", t);
  }

  // ---------------------------------------------------------------------
  // The tables

  /** ModelDAO or DatasetDAO over its table.  connected says whether the
      DAO holds a database handle; rows maps primary keys to rows; nextId
      is the next auto-increment key. */
  class Table {
    const kind: Kind
    const connected: bool
    var rows: map<nat, Row>
    var nextId: nat

    ghost predicate Valid()
      reads this
    {
      nextId >= 1 && forall k :: k in rows ==> 1 <= k < nextId
    }

    constructor (kind: Kind, connected: bool)
      ensures Valid()
      ensures this.kind == kind && this.connected == connected
      ensures rows == map[] && nextId == 1
    {
      this.kind := kind;
      this.connected := connected;
      rows := map[];
      nextId := 1;
    }

    /** The error withContext reports, wrapped by an operation. */
    function NoDB(operation: string): Error
    {
      Wrapped(operation + " failed: ", DBNotInitialized, "")
    }

    /** Save: refuse a nil entity; choose the stored file name (refusing the
        entity when there is none) and normalise the location set, both in
        the entity itself; then write the row.  Models are upserted on
        (name, version) and the entity takes the stored row's key; datasets
        are inserted. */
    method Save(rec: Record?) returns (err: Option<Error>)
      requires Valid()
      modifies this, rec
      ensures Valid()
      ensures rec == null ==> err == Some(NilEntity) && rows == old(rows)
      ensures rec != null && SaveFileName(kind, old(rec.fileName), old(rec.legacyFileName), old(rec.legacyPath)).None?
              ==> err == Some(NilEntity) && rows == old(rows) && rec.fileName == old(rec.fileName)
                  && rec.storageServer == old(rec.storageServer)
      ensures rec != null && SaveFileName(kind, old(rec.fileName), old(rec.legacyFileName), old(rec.legacyPath)).Some?
              ==> rec.fileName == SaveFileName(kind, old(rec.fileName), old(rec.legacyFileName), old(rec.legacyPath)).value
                  && rec.storageServer == EncodeStorageServerValue(ParseStorageServerValue(old(rec.storageServer)))
      ensures rec != null ==> rec.name == old(rec.name) && rec.version == old(rec.version) && rec.size == old(rec.size)
      ensures rec != null ==> rec.legacyFileName == old(rec.legacyFileName) && rec.legacyPath == old(rec.legacyPath)
      ensures (rec != null && SaveFileName(kind, old(rec.fileName), old(rec.legacyFileName), old(rec.legacyPath)).Some?
               && !connected) ==> err == Some(NoDB("save " + Noun(kind))) && rows == old(rows)
      ensures err.None? <==> rec != null && SaveFileName(kind, old(rec.fileName), old(rec.legacyFileName), old(rec.legacyPath)).Some? && connected
      ensures err.None? ==> rec.id in rows
      ensures err.None? ==>
                && Column(rows[rec.id], FileColumn(kind)) == Text(rec.fileName)
                && Column(rows[rec.id], StorageColumn) == Text(rec.storageServer)
                && Column(rows[rec.id], SizeColumn(kind)) == Real(rec.size)
      ensures err.None? ==> rows.Keys == old(rows).Keys + {rec.id}
      ensures err.None? ==> forall k :: k in old(rows) && k != rec.id ==> rows[k] == old(rows)[k]
      ensures err.None? && kind == DatasetKind ==> rec.id == old(nextId)
    {
      if rec == null {
        return Some(NilEntity);
      }
      var chosen := SaveFileName(kind, rec.fileName, rec.legacyFileName, rec.legacyPath);
      if chosen.None? {
        return Some(NilEntity);
      }
      var storage := EncodeStorageServerValue(ParseStorageServerValue(rec.storageServer));
      err := Commit(rec, chosen.value, storage);
    }

    /** The rest of Save once a file name and the normalised location set
        are known: store them in the entity, then write the row if there
        is a database. */
    method Commit(rec: Record, name: string, storage: string) returns (err: Option<Error>)
      requires Valid()
      modifies this, rec`fileName, rec`storageServer, rec`id
      ensures Valid()
      ensures rec.fileName == name && rec.storageServer == storage
      ensures rec.name == old(rec.name) && rec.version == old(rec.version) && rec.size == old(rec.size)
      ensures rec.legacyFileName == old(rec.legacyFileName) && rec.legacyPath == old(rec.legacyPath)
      ensures !connected ==> err == Some(NoDB("save " + Noun(kind))) && rows == old(rows)
      ensures err.None? <==> connected
      ensures err.None? ==> rec.id in rows
      ensures err.None? ==>
                && Column(rows[rec.id], FileColumn(kind)) == Text(rec.fileName)
                && Column(rows[rec.id], StorageColumn) == Text(rec.storageServer)
                && Column(rows[rec.id], SizeColumn(kind)) == Real(rec.size)
      ensures err.None? ==> rows.Keys == old(rows).Keys + {rec.id}
      ensures err.None? ==> forall k :: k in old(rows) && k != rec.id ==> rows[k] == old(rows)[k]
      ensures err.None? && kind == DatasetKind ==> rec.id == old(nextId)
    {
      rec.fileName := name;
      rec.storageServer := storage;
      if !connected {
        return Some(NoDB("save " + Noun(kind)));
      }
      Write(rec);
      return None;
    }

    /** The write of Save once the entity is ready: a model whose
        (name, version) is stored updates that row, anything else is
        inserted under the next key. */
    method Write(rec: Record)
      requires Valid() && connected
      modifies this`rows, this`nextId, rec`id
      ensures Valid()
      ensures rec.id in rows
      ensures rows.Keys == old(rows).Keys + {rec.id}
      ensures forall k :: k in old(rows) && k != rec.id ==> rows[k] == old(rows)[k]
      ensures && Column(rows[rec.id], FileColumn(kind)) == Text(rec.fileName)
              && Column(rows[rec.id], StorageColumn) == Text(rec.storageServer)
              && Column(rows[rec.id], SizeColumn(kind)) == Real(rec.size)
      ensures rec.id in old(rows) ==>
                kind == ModelKind && SameKey(old(rows)[rec.id], rec.name, rec.version)
                && rows == old(rows)[rec.id := Row(old(rows)[rec.id].cols + Columns(kind, rec))]
      ensures rec.id !in old(rows) ==>
                rec.id == old(nextId) && rows == old(rows)[rec.id := Row(Columns(kind, rec))]
                && (kind == ModelKind ==> forall k :: k in old(rows) ==> !SameKey(old(rows)[k], rec.name, rec.version))
    {
      if kind == ModelKind && exists k :: k in rows && SameKey(rows[k], rec.name, rec.version) {
        var k :| k in rows && SameKey(rows[k], rec.name, rec.version);
        MergeRow(k, rec);
        ColumnsWritten(kind, rec, old(rows)[k].cols);
      } else {
        InsertRow(rec);
        ColumnsWritten(kind, rec, map[]);
      }
    }

    /** The update half of Write: the record's columns over the row it
        matches. */
    method MergeRow(k: nat, rec: Record)
      requires Valid() && k in rows
      modifies this`rows, rec`id
      ensures Valid() && rec.id == k
      ensures rows == old(rows)[k := Row(old(rows)[k].cols + Columns(kind, rec))]
    {
      rows := rows[k := Row(rows[k].cols + Columns(kind, rec))];
      rec.id := k;
    }

    /** The insert half of Write: a new row under the next identifier. */
    method InsertRow(rec: Record)
      requires Valid()
      modifies this`rows, this`nextId, rec`id
      ensures Valid() && rec.id == old(nextId) && rec.id !in old(rows)
      ensures rows == old(rows)[rec.id := Row(Columns(kind, rec))]
    {
      rows := rows[nextId := Row(Columns(kind, rec))];
      rec.id := nextId;
      nextId := nextId + 1;
    }

    /** GetStorageServersByID: the stored location set, read back as a
        normalised list. */
    function GetStorageServersByID(id: nat): (r: Result<seq<string>>)
      reads this
      ensures id == 0 ==> r == Err(InvalidID)
      ensures id != 0 && !connected ==> r == Err(NoDB("get " + Noun(kind) + " storage server"))
      ensures id != 0 && connected && id !in rows ==> r == Err(RecordNotFound)
      ensures r.Ok? <==> id != 0 && connected && id in rows
      ensures r.Ok? ==> IsClean(r.value)
      ensures r.Ok? && IsBlank(TextColumn(rows[id], StorageColumn)) ==> r.value == []
    {
      if id == 0 then Err(InvalidID)
      else if !connected then Err(NoDB("get " + Noun(kind) + " storage server"))
      else if id !in rows then Err(RecordNotFound)
      else Ok(ParseStorageServerValue(TextColumn(rows[id], StorageColumn)))
    }

    /** UpdateStorageServersByID: read the location set, apply the action,
        write back its encoding.  Only that row's storage_server column
        changes, and the next read returns exactly what was returned. */
    method UpdateStorageServersByID(id: nat, action: string, servers: seq<string>) returns (r: Result<seq<string>>)
      requires Valid()
      modifies this
      ensures Valid() && nextId == old(nextId)
      ensures id == 0 ==> r == Err(InvalidID)
      ensures old(GetStorageServersByID(id)).Err? ==> r == old(GetStorageServersByID(id))
      ensures old(GetStorageServersByID(id)).Ok? ==> r == Apply(old(GetStorageServersByID(id)).value, action, servers)
      ensures r.Err? ==> rows == old(rows)
      ensures r.Ok? ==> id in old(rows)
                        && rows == old(rows)[id := Row(old(rows)[id].cols[StorageColumn := Text(EncodeStorageServerValue(r.value))])]
      ensures r.Ok? ==> GetStorageServersByID(id) == r
    {
      if id == 0 {
        return Err(InvalidID);
      }
      var current := GetStorageServersByID(id);
      if current.Err? {
        return current;
      }
      var next := ApplyStorageServerAction(current.value, action, servers);
      if next.Err? {
        return next;
      }
      var encoded := EncodeStorageServerValue(next.value);
      rows := rows[id := Row(rows[id].cols[StorageColumn := Text(encoded)])];
      ApplyReadsBack(current.value, action, servers);
      assert TextColumn(rows[id], StorageColumn) == encoded;
      return next;
    }

    /** FindByID: the row under a key; key 0 is refused before the
        database is consulted. */
    function FindByID(id: nat): (r: Result<Row>)
      reads this
      ensures id == 0 ==> r == Err(InvalidID)
      ensures id != 0 && !connected ==> r == Err(NoDB("find " + Noun(kind) + " by id"))
      ensures id != 0 && connected && id !in rows ==> r == Err(RecordNotFound)
      ensures r.Ok? <==> id != 0 && connected && id in rows
      ensures r.Ok? ==> r.value == rows[id]
    {
      if id == 0 then Err(InvalidID)
      else if !connected then Err(NoDB("find " + Noun(kind) + " by id"))
      else if id !in rows then Err(RecordNotFound)
      else Ok(rows[id])
    }

    /** FindWeightNameByID / FindFileNameByID: the stored file name,
        trimmed; a blank one is ErrNilEntity. */
    function FindFileNameByID(id: nat): (r: Result<string>)
      reads this
      ensures id == 0 ==> r == Err(InvalidID)
      ensures id != 0 && !connected ==> r == Err(NoDB("find " + Noun(kind) + " " + FileColumn(kind)))
      ensures id != 0 && connected && id !in rows ==> r == Err(RecordNotFound)
      ensures id != 0 && connected && id in rows && IsBlank(TextColumn(rows[id], FileColumn(kind))) ==> r == Err(NilEntity)
      ensures r.Ok? ==> id in rows && r.value != "" && IsTrimmed(r.value)
                        && r.value == TrimSpace(TextColumn(rows[id], FileColumn(kind)))
    {
      if id == 0 then Err(InvalidID)
      else if !connected then Err(NoDB("find " + Noun(kind) + " " + FileColumn(kind)))
      else if id !in rows then Err(RecordNotFound)
      else
        var name := TrimSpace(TextColumn(rows[id], FileColumn(kind)));
        TrimSpaceEnds(TextColumn(rows[id], FileColumn(kind)));
        if name == "" then Err(NilEntity) else Ok(name)
    }

    /** A plain stored name is found as it is. */
    lemma FindPlainName(id: nat, name: string)
      requires connected && id != 0 && id in rows
      requires TextColumn(rows[id], FileColumn(kind)) == name && IsPlainName(name)
      ensures FindFileNameByID(id) == Ok(name)
    {
      TrimSpaceOfTrimmed(name);
    }

    /** The keys of the rows stored under a file name. */
    function Named(name: string): set<nat>
      reads this
    {
      set k | k in rows && TextColumn(rows[k], FileColumn(kind)) == name
    }

    /** The rows a size update changes: those stored under the name whose
        size differs (MySQL reports changed rows, not matched rows). */
    function Resized(name: string, size: real): set<nat>
      reads this
    {
      set k | k in rows && TextColumn(rows[k], FileColumn(kind)) == name && Column(rows[k], SizeColumn(kind)) != Real(size)
    }

    function SizeOperation(): string
    {
      if kind == ModelKind then "update model weight size" else "update dataset size"
    }

    /** UpdateWeightSizeByWeightName / UpdateSizeByFileName: refuse an
        unusable base name or a negative size, then set the size of every
        row stored under the base name and report how many changed. */
    method UpdateSizeByFileName(fileName: string, size: real) returns (r: Result<nat>)
      requires Valid()
      modifies this
      ensures Valid() && nextId == old(nextId)
      ensures NormalizeArtifactFileName(fileName).Err? ==> r == Err(NilEntity)
      ensures NormalizeArtifactFileName(fileName).Ok? && size < 0.0 ==> r == Err(NilEntity)
      ensures NormalizeArtifactFileName(fileName).Ok? && size >= 0.0 && !connected ==> r == Err(NoDB(SizeOperation()))
      ensures r.Err? ==> rows == old(rows)
      ensures r.Ok? <==> NormalizeArtifactFileName(fileName).Ok? && size >= 0.0 && connected
      ensures r.Ok? ==>
        var name := NormalizeArtifactFileName(fileName).value;
        r.value == |old(Resized(name, size))|
        && rows.Keys == old(rows).Keys
        && (forall k :: k in rows ==>
              rows[k] == if k in old(Named(name)) then Row(old(rows)[k].cols[SizeColumn(kind) := Real(size)]) else old(rows)[k])
    {
      var normalized := NormalizeArtifactFileName(fileName);
      if normalized.Err? {
        return Err(NilEntity);
      }
      if size < 0.0 {
        return Err(NilEntity);
      }
      if !connected {
        return Err(NoDB(SizeOperation()));
      }
      var name := normalized.value;
      var changed := Resized(name, size);
      rows := map k | k in rows :: if k in Named(name) then Row(rows[k].cols[SizeColumn(kind) := Real(size)]) else rows[k];
      return Ok(|changed|);
    }

    /** DeleteByWeightName / DeleteByFileName: refuse an unusable base name,
        delete every row stored under it, and report ErrRecordNotFound when
        there was none. */
    method DeleteByFileName(fileName: string) returns (r: Result<nat>)
      requires Valid()
      modifies this
      ensures Valid() && nextId == old(nextId)
      ensures NormalizeArtifactFileName(fileName).Err? ==> r == Err(NilEntity)
      ensures NormalizeArtifactFileName(fileName).Ok? && !connected
              ==> r == Err(NoDB("delete " + Noun(kind) + " by " + FileColumn(kind)))
      ensures NormalizeArtifactFileName(fileName).Ok? && connected && old(Named(NormalizeArtifactFileName(fileName).value)) == {}
              ==> r == Err(RecordNotFound)
      ensures r.Err? ==> rows == old(rows)
      ensures r.Err? <==> (NormalizeArtifactFileName(fileName).Err? || !connected
                           || old(Named(NormalizeArtifactFileName(fileName).value)) == {})
      ensures r.Ok? ==>
        var name := NormalizeArtifactFileName(fileName).value;
        NormalizeArtifactFileName(fileName).Ok? && r.value == |old(Named(name))| && r.value > 0
        && rows == map k | k in old(rows) && k !in old(Named(name)) :: old(rows)[k]
    {
      var normalized := NormalizeArtifactFileName(fileName);
      if normalized.Err? {
        return Err(NilEntity);
      }
      if !connected {
        return Err(NoDB("delete " + Noun(kind) + " by " + FileColumn(kind)));
      }
      var doomed := Named(normalized.value);
      if |doomed| == 0 {
        return Err(RecordNotFound);
      }
      rows := map k | k in rows && k !in doomed :: rows[k];
      return Ok(|doomed|);
    }

    /** DeleteByID (models only): refuse key 0, delete the row, and report
        ErrRecordNotFound when there was none. */
    method DeleteByID(id: nat) returns (err: Option<Error>)
      requires Valid() && kind == ModelKind
      modifies this
      ensures Valid() && nextId == old(nextId)
      ensures id == 0 ==> err == Some(InvalidID)
      ensures id != 0 && !connected ==> err == Some(NoDB("delete model by id"))
      ensures id != 0 && connected && id !in old(rows) ==> err == Some(RecordNotFound)
      ensures err.Some? ==> rows == old(rows)
      ensures err.None? <==> id != 0 && connected && id in old(rows)
      ensures err.None? ==> rows == old(rows) - {id}
    {
      if id == 0 {
        return Some(InvalidID);
      }
      if !connected {
        return Some(NoDB("delete model by id"));
      }
      if id !in rows {
        return Some(RecordNotFound);
      }
      rows := rows - {id};
      return None;
    }

    /** FindByName: a row whose name is the trimmed name.  The models
        query orders by version DESC, id DESC and takes the first row; the
        datasets query has no order and takes any. */
    method FindByName(name: string) returns (r: Result<nat>)
      ensures IsBlank(name) ==> r == Err(NilEntity)
      ensures !IsBlank(name) && !connected ==> r == Err(NoDB("find " + Noun(kind) + " by name"))
      ensures r.Ok? ==> r.value in rows && Column(rows[r.value], "name") == Text(TrimSpace(name))
      ensures !IsBlank(name) && connected
              ==> (r == Err(RecordNotFound) <==> forall k :: k in rows ==> Column(rows[k], "name") != Text(TrimSpace(name)))
      ensures r.Ok? && kind == ModelKind ==> TakenFirst(rows, r.value, TrimSpace(name))
    {
      var trimmed := TrimSpace(name);
      if trimmed == "" {
        return Err(NilEntity);
      }
      if !connected {
        return Err(NoDB("find " + Noun(kind) + " by name"));
      }
      var named := set k | k in rows && Column(rows[k], "name") == Text(trimmed);
      if named == {} {
        forall k | k in rows
          ensures Column(rows[k], "name") != Text(trimmed)
        {
          assert k !in named;
        }
        return Err(RecordNotFound);
      }
      if kind == ModelKind {
        FirstExists(rows, named);
        var k :| First(rows, named, k);
        return Ok(k);
      }
      var k :| k in named;
      return Ok(k);
    }

    /** UpdateMetadataByID: refuse key 0 and an empty update, require the
        row, then write the columns.  A failing write is reported as
        ErrAlreadyExists when the driver's message is a duplicate-key one
        (dbError is that message, None when the write succeeds). */
    method UpdateMetadataByID(id: nat, updates: map<string, Value>, dbError: Option<string>) returns (r: Result<Row>)
      requires Valid()
      modifies this
      ensures Valid() && nextId == old(nextId)
      ensures id == 0 ==> r == Err(InvalidID)
      ensures id != 0 && |updates| == 0 ==> r == Err(NilEntity)
      ensures id != 0 && |updates| > 0 && !connected ==> r == Err(NoDB("update " + Noun(kind) + " metadata"))
      ensures id != 0 && |updates| > 0 && connected && id !in old(rows) ==> r == Err(RecordNotFound)
      ensures id != 0 && |updates| > 0 && connected && id in old(rows) && dbError.Some?
              ==> r == Err(if IsDuplicateKeyError(dbError) then AlreadyExists
                           else Wrapped("update " + Noun(kind) + " metadata failed: ", Foreign(dbError.value), ""))
      ensures r.Err? ==> rows == old(rows)
      ensures r.Ok? <==> id != 0 && |updates| > 0 && connected && id in old(rows) && dbError.None?
      ensures r.Ok? ==> rows == old(rows)[id := Row(old(rows)[id].cols + updates)] && r.value == rows[id]
    {
      if id == 0 {
        return Err(InvalidID);
      }
      if |updates| == 0 {
        return Err(NilEntity);
      }
      if !connected {
        return Err(NoDB("update " + Noun(kind) + " metadata"));
      }
      if id !in rows {
        return Err(RecordNotFound);
      }
      if dbError.Some? {
        if IsDuplicateKeyError(dbError) {
          return Err(AlreadyExists);
        }
        return Err(Wrapped("update " + Noun(kind) + " metadata failed: ", Foreign(dbError.value), ""));
      }
      rows := rows[id := Row(rows[id].cols + updates)];
      return Ok(rows[id]);
    }

    /** FindAll: bind the handle, then add the conditions, pick the order
        and page the result.  Running the query is not modelled: the result
        is the query itself. */
    function FindAll(p: ListParams): (r: Result<ListQuery>)
      ensures r.Err? <==> !connected
      ensures r.Err? ==> r.error == NoDB("find " + Noun(kind) + "s")
      ensures r.Ok? ==> r.value.offset >= 0 && 1 <= r.value.limit <= MaxPageSize
      ensures r.Ok? ==> r.value.order in {"id DESC", SizeColumn(kind) + " ASC", SizeColumn(kind) + " DESC"}
    {
      if !connected then Err(NoDB("find " + Noun(kind) + "s"))
      else
        var page := Pagination.Pagination(PageQuery(p.page, p.pageSize), MaxPageSize);
        Ok(ListQuery(Filters(kind, p), OrderBy(kind, p), page.0, page.1))
    }
  }
}
