/** The model and dataset services (service/model_service.go,
    service/dataset_service.go): the file-name derivation they perform
    before the record store sees an entity, the rewriting of metadata
    updates, size synchronisation, and deletion of a record together with
    its file in the backend root of the local file system. */
module Services {
  import opened Wrappers
  import opened GoStrings
  import opened GoPath
  import opened LocationSet
  import opened StorageField
  import opened ArtifactPaths
  import opened Values
  import opened Dao
  import opened SSHTransfer

  /** The artifact category of a record kind. */
  function Category(kind: Kind): string
  {
    if kind == ModelKind then Weights else Datasets
  }

  /** deriveModelWeightName, and the dataset service's use of
      deriveFileName: a model takes its weight name, else its legacy file
      name with its legacy path as fallback; a dataset takes its file name
      with its dataset path as fallback.  "" when nothing is usable. */
  function DeriveRecordName(kind: Kind, fileName: string, legacyFileName: string, legacyPath: string): (r: string)
    ensures r == "" || IsPlainName(r)
  {
    if kind == ModelKind then
      var value := DeriveFileName(fileName, "");
      if value != "" then value else DeriveFileName(legacyFileName, legacyPath)
    else DeriveFileName(fileName, legacyPath)
  }

  /** A usable weight name is kept whatever the legacy fields say. */
  lemma ModelWeightNameFirst(name: string, legacyFileName: string, legacyPath: string)
    requires IsPlainName(name)
    ensures DeriveRecordName(ModelKind, name, legacyFileName, legacyPath) == name
  {
    DeriveKeepsPlainName(name, "");
  }

  /** A model without a usable weight name takes its usable legacy file
      name before its legacy path. */
  lemma ModelLegacyFileNameSecond(legacyFileName: string, legacyPath: string)
    requires IsPlainName(legacyFileName)
    ensures DeriveRecordName(ModelKind, "", legacyFileName, legacyPath) == legacyFileName
  {
    assert TrimSpace("") == "";
    assert BackslashToSlash("") == "";
    DeriveKeepsPlainName(legacyFileName, legacyPath);
  }

  /** With no usable name at all, the base name of the legacy path is used. */
  lemma RecordNameFromLegacyPath(kind: Kind, legacyDir: string, name: string)
    requires IsPlainName(name) && '\\' !in name && '\\' !in legacyDir
    requires legacyDir == "" || !IsSpace(legacyDir[0])
    ensures DeriveRecordName(kind, "", "", legacyDir + "/" + name) == name
  {
    assert TrimSpace("") == "";
    assert BackslashToSlash("") == "";
    DeriveFromLegacy(legacyDir, name);
  }

  /** bytesToMB: megabytes rounded half away from zero to three decimals,
      0 for a size that is not positive.  (Computed exactly, not in
      float64.) */
  function BytesToMB(sizeBytes: int): (r: real)
    ensures r >= 0.0
    ensures sizeBytes <= 0 ==> r == 0.0
  {
    if sizeBytes <= 0 then 0.0
    else ((sizeBytes * 1000 + 524288) / 1048576) as real / 1000.0
  }

  /** The rounded size is within half a thousandth of a megabyte of the
      exact size. */
  lemma BytesToMBClose(sizeBytes: int)
    requires sizeBytes > 0
    ensures -0.0005 < BytesToMB(sizeBytes) - sizeBytes as real / 1048576.0 <= 0.0005
  {
    var n := sizeBytes * 1000 + 524288;
    var q := n / 1048576;
    assert q * 1048576 <= n < q * 1048576 + 1048576;
    var x := sizeBytes as real / 1048576.0;
    assert (q * 1048576) as real <= n as real < (q * 1048576 + 1048576) as real;
    assert BytesToMB(sizeBytes) == q as real / 1000.0;
    assert n as real == sizeBytes as real * 1000.0 + 524288.0;
    assert q as real * 1048576.0 <= sizeBytes as real * 1000.0 + 524288.0;
    assert sizeBytes as real * 1000.0 + 524288.0 < q as real * 1048576.0 + 1048576.0;
  }

  /** A larger file never reports a smaller size. */
  lemma BytesToMBMonotone(a: int, b: int)
    requires a <= b
    ensures BytesToMB(a) <= BytesToMB(b)
  {
    if a > 0 {
      DivMonotone(a * 1000 + 524288, b * 1000 + 524288, 1048576);
    }
  }

  lemma DivMonotone(x: int, y: int, d: int)
    requires x <= y && d > 0
    ensures x / d <= y / d
  {
    var qx, qy := x / d, y / d;
    if qx > qy {
      ProductNonNegative(qx - qy - 1, d);
      assert false;
    }
  }

  lemma ProductNonNegative(a: int, b: int)
    requires a >= 0 && b >= 0
    ensures b * a >= 0
  {
  }

  /** What DeleteByFileName reports. */
  datatype DeleteResult = DeleteResult(fileName: string, deletedRecords: nat, localFileDeleted: bool)

  /** A column update read as Go reads updates[...].(string): "" unless
      the value is a string. */
  function AsText(v: Value): string
  {
    if v.Text? then v.s else ""
  }

  /** A Save leaves a normalised location-set value as it is. */
  lemma FieldSurvivesSave(raw: string)
    ensures EncodeStorageServerValue(ParseStorageServerValue(FieldValue(raw))) == FieldValue(raw)
  {
    FieldReadsBack(raw);
    NormalizeOfClean(ParseStorageServerValue(raw));
  }

  /** An update map with a size column added when it gives none and a size
      is known. */
  function WithSize(named: map<string, Value>, column: string, sizeMB: Option<real>): (r: map<string, Value>)
    ensures named.Keys <= r.Keys <= named.Keys + {column}
    ensures forall c :: c in named ==> r[c] == named[c]
    ensures column !in named ==> (column in r <==> sizeMB.Some?)
  {
    if column in named || sizeMB.None? then named else named[column := Real(sizeMB.value)]
  }

  /** ModelService or DatasetService: the record store, the path resolver
      (None when it is nil) and the local file system, a map from path to
      entry. */
  class RecordService {
    const kind: Kind
    const table: Table
    const paths: Option<PathService>
    var local: map<string, LocalEntry>

    ghost predicate Valid()
      reads this, table
    {
      table.Valid() && table.kind == kind
    }

    constructor (table: Table, paths: Option<PathService>, local: map<string, LocalEntry>)
      requires table.Valid()
      ensures Valid()
      ensures this.kind == table.kind && this.table == table && this.paths == paths && this.local == local
    {
      this.kind := table.kind;
      this.table := table;
      this.paths := paths;
      this.local := local;
    }

    /** resolveLocalWeightSizeMB / resolveLocalDatasetSizeMB: the size of
        the regular file at the name's backend path, if there is one. */
    function LocalSizeMB(name: string): (r: Option<real>)
      reads this
      ensures r.Some? ==> paths.Some? && BuildPath(paths.value, Category(kind), Backend, name).Ok?
      ensures r.Some? ==>
        var path := BuildPath(paths.value, Category(kind), Backend, name).value;
        path in local && local[path].File? && r.value == BytesToMB(|local[path].content|)
    {
      if paths.None? then None
      else
        match BuildPath(paths.value, Category(kind), Backend, name)
        case Err(_) => None
        case Ok(path) =>
          if TrimSpace(path) == "" then None
          else if path in local && local[path].File? then Some(BytesToMB(|local[path].content|))
          else None
    }

    /** CreateModel / CreateDataset: normalise the location set and derive
        the file name in the entity, refuse it when no name is usable, fill
        a missing size from the local file, and save.  The row saved holds
        exactly the derived name and the normalised location set. */
    method CreateRecord(rec: Record?) returns (err: Option<Error>)
      requires Valid()
      modifies table, rec
      ensures Valid()
      ensures rec == null ==> err == Some(NilEntity) && table.rows == old(table.rows)
      ensures rec != null ==> rec.storageServer == FieldValue(old(rec.storageServer))
      ensures rec != null && DeriveRecordName(kind, old(rec.fileName), old(rec.legacyFileName), old(rec.legacyPath)) == ""
              ==> err == Some(NilEntity) && table.rows == old(table.rows)
      ensures rec != null && DeriveRecordName(kind, old(rec.fileName), old(rec.legacyFileName), old(rec.legacyPath)) != ""
              ==> rec.fileName == DeriveRecordName(kind, old(rec.fileName), old(rec.legacyFileName), old(rec.legacyPath))
      ensures (rec != null && DeriveRecordName(kind, old(rec.fileName), old(rec.legacyFileName), old(rec.legacyPath)) != ""
               && old(rec.size) <= 0.0 && LocalSizeMB(rec.fileName).Some?) ==> rec.size == LocalSizeMB(rec.fileName).value
      ensures (rec != null && !(old(rec.size) <= 0.0 && LocalSizeMB(rec.fileName).Some?)) ==> rec.size == old(rec.size)
      ensures (rec != null && DeriveRecordName(kind, old(rec.fileName), old(rec.legacyFileName), old(rec.legacyPath)) != ""
               && !table.connected) ==> err == Some(table.NoDB("save " + Noun(kind))) && table.rows == old(table.rows)
      ensures err.None? <==>
                rec != null && DeriveRecordName(kind, old(rec.fileName), old(rec.legacyFileName), old(rec.legacyPath)) != ""
                && table.connected
      ensures err.None? ==>
                rec.id in table.rows
                && Column(table.rows[rec.id], FileColumn(kind))
                   == Text(DeriveRecordName(kind, old(rec.fileName), old(rec.legacyFileName), old(rec.legacyPath)))
                && Column(table.rows[rec.id], StorageColumn) == Text(FieldValue(old(rec.storageServer)))
                && Column(table.rows[rec.id], SizeColumn(kind)) == Real(rec.size)
    {
      if rec == null {
        return Some(NilEntity);
      }
      ghost var raw := rec.storageServer;
      var name := Prepare(rec);
      if name == "" {
        return Some(NilEntity);
      }
      FillSize(rec, name);
      SaveKeepsPlainName(kind, name, rec.legacyFileName, rec.legacyPath);
      FieldSurvivesSave(raw);
      err := table.Save(rec);
    }

    /** The first step of CreateRecord: the normalised location set and the
        derived name go into the entity. */
    method Prepare(rec: Record) returns (name: string)
      modifies rec`storageServer, rec`fileName
      ensures name == DeriveRecordName(kind, old(rec.fileName), old(rec.legacyFileName), old(rec.legacyPath))
      ensures rec.fileName == name && rec.storageServer == FieldValue(old(rec.storageServer))
    {
      rec.storageServer := NormalizeStorageServerField(rec.storageServer);
      name := DeriveRecordName(kind, rec.fileName, rec.legacyFileName, rec.legacyPath);
      rec.fileName := name;
    }

    /** A size of zero or less is replaced by the local file's size, when
        there is a local file. */
    method FillSize(rec: Record, name: string)
      modifies rec`size
      ensures old(rec.size) <= 0.0 && LocalSizeMB(name).Some? ==> rec.size == LocalSizeMB(name).value
      ensures !(old(rec.size) <= 0.0 && LocalSizeMB(name).Some?) ==> rec.size == old(rec.size)
    {
      if rec.size <= 0.0 {
        var sizeMB := LocalSizeMB(name);
        if sizeMB.Some? {
          rec.size := sizeMB.value;
        }
      }
    }

    /** The update map UpdateModelMetadata / UpdateDatasetMetadata hands
        to the record store: a text location set is normalised, the file
        name is reduced to a usable name (refused when there is none) and,
        when no size is given, the local file's size is added. */
    function PatchedUpdates(updates: map<string, Value>): (r: Result<map<string, Value>>)
      reads this
      ensures r.Err? <==> FileColumn(kind) in updates && DeriveFileName(TrimSpace(AsText(updates[FileColumn(kind)])), "") == ""
      ensures r.Err? ==> r.error == NilEntity
      ensures r.Ok? ==> updates.Keys <= r.value.Keys <= updates.Keys + {SizeColumn(kind)}
      ensures r.Ok? && FileColumn(kind) in updates
              ==> r.value[FileColumn(kind)].Text? && IsPlainName(r.value[FileColumn(kind)].s)
      ensures r.Ok? && StorageColumn in updates && updates[StorageColumn].Text?
              ==> r.value[StorageColumn] == Text(FieldValue(updates[StorageColumn].s))
      ensures r.Ok? && StorageColumn in updates && !updates[StorageColumn].Text? ==> r.value[StorageColumn] == updates[StorageColumn]
      ensures r.Ok? && SizeColumn(kind) !in updates ==>
                (SizeColumn(kind) in r.value <==>
                   FileColumn(kind) in updates && LocalSizeMB(r.value[FileColumn(kind)].s).Some?)
    {
      var u := StorageNormalized(updates);
      if FileColumn(kind) !in updates then Ok(u)
      else
        var normalized := DeriveFileName(TrimSpace(AsText(updates[FileColumn(kind)])), "");
        if normalized == "" then Err(NilEntity)
        else
          Ok(SizeFilled(u[FileColumn(kind) := Text(normalized)], normalized))
    }

    /** An update map with the local file's size added when it gives none
        and the file is there. */
    function SizeFilled(named: map<string, Value>, name: string): (r: map<string, Value>)
      reads this
      ensures named.Keys <= r.Keys <= named.Keys + {SizeColumn(kind)}
      ensures forall c :: c in named ==> r[c] == named[c]
      ensures SizeColumn(kind) !in named ==> (SizeColumn(kind) in r <==> LocalSizeMB(name).Some?)
    {
      WithSize(named, SizeColumn(kind), LocalSizeMB(name))
    }

    /** The update map with a text location set normalised; every other
        column as it was. */
    function StorageNormalized(updates: map<string, Value>): (r: map<string, Value>)
      ensures r.Keys == updates.Keys
      ensures StorageColumn in updates && updates[StorageColumn].Text?
              ==> r[StorageColumn] == Text(FieldValue(updates[StorageColumn].s))
      ensures forall c :: c in updates && (c != StorageColumn || !updates[c].Text?) ==> r[c] == updates[c]
    {
      if StorageColumn in updates && updates[StorageColumn].Text?
      then updates[StorageColumn := Text(FieldValue(updates[StorageColumn].s))]
      else updates
    }

    /** Only the file name, location set and size columns are rewritten. */
    lemma PatchedKeepsOthers(updates: map<string, Value>, c: string)
      requires PatchedUpdates(updates).Ok? && c in updates
      requires c != FileColumn(kind) && c != StorageColumn
      ensures PatchedUpdates(updates).value[c] == updates[c]
    {
      var u := StorageNormalized(updates);
      assert u[c] == updates[c];
      if FileColumn(kind) in updates {
        var normalized := DeriveFileName(TrimSpace(AsText(updates[FileColumn(kind)])), "");
        var named := u[FileColumn(kind) := Text(normalized)];
        assert named[c] == updates[c];
        assert PatchedUpdates(updates).value == SizeFilled(named, normalized);
      }
    }

    /** UpdateModelMetadata / UpdateDatasetMetadata: refuse an empty
        update, rewrite it, then update the row.  dbError is the driver's
        message when the write fails. */
    method UpdateMetadata(id: nat, updates: map<string, Value>, dbError: Option<string>) returns (r: Result<Row>)
      requires Valid()
      modifies table
      ensures Valid()
      ensures |updates| == 0 ==> r == Err(NilEntity)
      ensures |updates| > 0 && PatchedUpdates(updates).Err? ==> r == Err(NilEntity)
      ensures r.Err? ==> table.rows == old(table.rows)
      ensures r.Ok? <==>
                |updates| > 0 && PatchedUpdates(updates).Ok?
                && id != 0 && table.connected && id in old(table.rows) && dbError.None?
      ensures r.Ok? ==>
                table.rows == old(table.rows)[id := Row(old(table.rows)[id].cols + PatchedUpdates(updates).value)]
                && r.value == table.rows[id]
    {
      if |updates| == 0 {
        return Err(NilEntity);
      }
      var patched := PatchedUpdates(updates);
      if patched.Err? {
        return Err(NilEntity);
      }
      assert |patched.value| > 0 by {
        var c :| c in updates;
        assert c in patched.value;
      }
      r := table.UpdateMetadataByID(id, patched.value, dbError);
    }

    function SizeName(fileName: string): string
    {
      DeriveFileName(TrimSpace(fileName), "")
    }

    /** SyncWeightSizeByFileName / SyncSizeByFileName: refuse an unusable
        name or a negative byte count before touching the store, then set
        the size in MB of every row stored under the name.  Returns how
        many rows changed and the size written. */
    method SyncSize(fileName: string, sizeBytes: int) returns (r: Result<(nat, real)>)
      requires Valid()
      modifies table
      ensures Valid()
      ensures SizeName(fileName) == "" ==> r == Err(NilEntity)
      ensures sizeBytes < 0 ==> r == Err(NilEntity)
      ensures SizeName(fileName) != "" && sizeBytes >= 0 && !table.connected ==> r == Err(table.NoDB(table.SizeOperation()))
      ensures r.Err? ==> table.rows == old(table.rows)
      ensures r.Ok? <==> SizeName(fileName) != "" && sizeBytes >= 0 && table.connected
      ensures r.Ok? ==>
        var name := SizeName(fileName);
        r.value.1 == BytesToMB(sizeBytes)
        && r.value.0 == |old(table.Resized(name, r.value.1))|
        && table.rows.Keys == old(table.rows).Keys
        && (forall k :: k in table.rows ==>
              table.rows[k] == if k in old(table.Named(name)) then Row(old(table.rows)[k].cols[SizeColumn(kind) := Real(r.value.1)])
                               else old(table.rows)[k])
    {
      var name := DeriveFileName(TrimSpace(fileName), "");
      if name == "" {
        return Err(NilEntity);
      }
      if sizeBytes < 0 {
        return Err(NilEntity);
      }
      var sizeMB := BytesToMB(sizeBytes);
      PlainNameAccepted(name);
      var affected := table.UpdateSizeByFileName(name, sizeMB);
      if affected.Err? {
        return Err(affected.error);
      }
      return Ok((affected.value, sizeMB));
    }

    /** The backend path of a name's local file, when the resolver is set. */
    function BackendPath(name: string): (r: Option<Result<string>>)
      ensures r.Some? && r.value.Ok? ==> r.value.value != ""
    {
      if paths.None? then None else Some(BuildPath(paths.value, Category(kind), Backend, name))
    }

    /** DeleteByFileName: refuse an unusable name, delete the rows stored
        under it, then remove the local file (see RemoveLocalFile).
        statFault and removeFault are the errors os.Stat and os.Remove
        report, other than the file being absent. */
    method DeleteByFileName(fileName: string, statFault: Option<string>, removeFault: Option<string>)
      returns (res: DeleteResult, err: Option<Error>)
      requires Valid()
      modifies this, table
      ensures Valid()
      ensures SizeName(fileName) == "" ==> res == DeleteResult("", 0, false) && err == Some(NilEntity)
      ensures res.fileName == "" ==> table.rows == old(table.rows) && local == old(local) && err.Some? && !res.localFileDeleted
      ensures SizeName(fileName) != "" && table.connected && old(table.Named(SizeName(fileName))) != {}
              ==> res.fileName != ""
      ensures res.fileName != "" ==>
                res.fileName == SizeName(fileName)
                && res.deletedRecords == |old(table.Named(res.fileName))| && res.deletedRecords > 0
                && (res.localFileDeleted, err, local) == old(LocalRemoval(res.fileName, statFault, removeFault))
                && table.rows == (map k | k in old(table.rows) && k !in old(table.Named(res.fileName)) :: old(table.rows)[k])
    {
      var name := DeriveFileName(TrimSpace(fileName), "");
      if name == "" {
        return DeleteResult("", 0, false), Some(NilEntity);
      }
      PlainNameAccepted(name);
      var deleted := table.DeleteByFileName(name);
      if deleted.Err? {
        return DeleteResult("", 0, false), Some(deleted.error);
      }
      var removed;
      removed, err := RemoveLocalFile(name, statFault, removeFault);
      res := DeleteResult(name, deleted.value, removed);
    }

    /** What removing a name's local file does: whether a file was
        removed, the error, and the file system afterwards.  Only a
        regular file at the backend path is removed; no resolver, a missing
        file or a directory is not an error. */
    function LocalRemoval(name: string, statFault: Option<string>, removeFault: Option<string>)
      : (r: (bool, Option<Error>, map<string, LocalEntry>))
      reads this
      ensures r.0 <==> (BackendPath(name).Some? && BackendPath(name).value.Ok?
                        && statFault.None? && removeFault.None?
                        && BackendPath(name).value.value in local && local[BackendPath(name).value.value].File?)
      ensures r.0 ==> r.1.None? && r.2 == local - {BackendPath(name).value.value}
      ensures !r.0 ==> r.2 == local
      ensures BackendPath(name).None? ==> r.1.None?
      ensures BackendPath(name).Some? && BackendPath(name).value.Err? ==> r.1 == Some(BackendPath(name).value.error)
      ensures (BackendPath(name).Some? && BackendPath(name).value.Ok? && statFault.Some?)
              ==> r.1 == Some(Wrapped("stat local " + Noun(kind) + " file failed: ", Foreign(statFault.value), ""))
      ensures (BackendPath(name).Some? && BackendPath(name).value.Ok? && statFault.None?
               && !(BackendPath(name).value.value in local && local[BackendPath(name).value.value].File?))
              ==> r.1.None?
    {
      match BackendPath(name)
      case None => (false, None, local)
      case Some(Err(e)) => (false, Some(e), local)
      case Some(Ok(path)) =>
        if statFault.Some? then (false, Some(Wrapped("stat local " + Noun(kind) + " file failed: ", Foreign(statFault.value), "")), local)
        else if path !in local || local[path].Dir? then (false, None, local)
        else if removeFault.Some? then (false, Some(Wrapped("remove local " + Noun(kind) + " file failed: ", Foreign(removeFault.value), "")), local)
        else (true, None, local - {path})
    }

    /** The removal of a name's local file, step by step. */
    method RemoveLocalFile(name: string, statFault: Option<string>, removeFault: Option<string>)
      returns (removed: bool, err: Option<Error>)
      modifies this`local
      ensures (removed, err, local) == old(LocalRemoval(name, statFault, removeFault))
    {
      if paths.None? {
        return false, None;
      }
      var localPath := BuildPath(paths.value, Category(kind), Backend, name);
      if localPath.Err? {
        return false, Some(localPath.error);
      }
      if localPath.value == "" {
        return false, None;
      }
      if statFault.Some? {
        return false, Some(Wrapped("stat local " + Noun(kind) + " file failed: ", Foreign(statFault.value), ""));
      }
      if localPath.value !in local || local[localPath.value].Dir? {
        return false, None;
      }
      if removeFault.Some? {
        return false, Some(Wrapped("remove local " + Noun(kind) + " file failed: ", Foreign(removeFault.value), ""));
      }
      local := local - {localPath.value};
      return true, None;
    }

    /** ResolveFilePathByID: the path, in the category's root for the
        target, of the file name stored in the record. */
    function ResolveFilePathByID(id: nat, target: string): (r: Result<string>)
      reads this, table
      ensures paths.None? ==> r == Err(ArtifactPathServiceNil)
      ensures paths.Some? && table.FindFileNameByID(id).Err? ==> r == Err(table.FindFileNameByID(id).error)
      ensures r.Ok? ==> paths.Some? && table.FindFileNameByID(id).Ok? && id in table.rows
      ensures r.Ok? ==> r == BuildPath(paths.value, Category(kind), target, table.FindFileNameByID(id).value)
    {
      if paths.None? then Err(ArtifactPathServiceNil)
      else
        var name :- table.FindFileNameByID(id);
        BuildPath(paths.value, Category(kind), target, name)
    }

    /** A record whose stored name is plain (as every name a service saves
        is) resolves to that name one level below the category's root. */
    lemma ResolvedBelowRoot(id: nat, target: string, name: string)
      requires Valid() && paths.Some? && table.connected && id != 0 && id in table.rows
      requires TextColumn(table.rows[id], FileColumn(kind)) == name
      requires IsPlainName(name) && name != ".."
      requires BuildPath(paths.value, Category(kind), target, name).Ok?
      ensures ResolveFilePathByID(id, target) == BuildPath(paths.value, Category(kind), target, name)
      ensures CleanStack(ResolveFilePathByID(id, target).value)
              == CleanStack(ResolveRoot(paths.value, Category(kind), target).value) + [name]
    {
      table.FindPlainName(id, name);
      PlainNameAccepted(name);
      BuildPathUnderRoot(paths.value, Category(kind), target, name);
    }
  }
}
