/** The storage decisions of the v1 HTTP controllers
    (handler/v1/model_controller.go and handler/v1/baidu_controller.go):
    which location labels name this host, Baidu Netdisk or a core server,
    which key a core upload uses, which failures are client errors, and the
    two download flows that fetch a file from Baidu Netdisk and record in
    the location set that the backend now holds it. */
module Controllers {
  import opened Wrappers
  import opened GoStrings
  import opened GoPath
  import opened LocationSet
  import opened ArtifactPaths
  import opened Upload
  import opened Dao
  import opened Values
  import opened Services
  import opened HttpParams
  import opened CoreServers
  import opened SSHTransfer
  import BaiduPan

  // ------------------------------------------------------------- the labels

  /** The labels isLocalStorageServer takes for this host (compared in
      lower case, trimmed). */
  const LocalLabels: set<string> := {"", Backend, "local", "localhost", "127.0.0.1", "::1"}

  predicate IsLocalStorageServer(server: string)
  {
    LowerTrim(server) in LocalLabels
  }

  /** Some entry of the list names Baidu Netdisk. */
  predicate HasBaiduLabel(servers: seq<string>)
  {
    exists i :: 0 <= i < |servers| && IsBaiduStorageServer(servers[i])
  }

  /** containsBaiduStorage: scan the list and stop at the first Baidu label. */
  method ContainsBaiduStorage(servers: seq<string>) returns (found: bool)
    ensures found <==> HasBaiduLabel(servers)
  {
    for i := 0 to |servers|
      invariant forall j :: 0 <= j < i ==> !IsBaiduStorageServer(servers[j])
    {
      if IsBaiduStorageServer(servers[i]) {
        return true;
      }
    }
    return false;
  }

  /** shouldAutoUploadToCoreByStorageServer: a label that is neither this
      host nor Baidu Netdisk names a core server. */
  function ShouldAutoUploadToCore(storageServer: string): (r: bool)
    ensures r <==> LowerTrim(storageServer) !in LocalLabels + BaiduSynonyms
  {
    assert [storageServer][0] == storageServer;
    !IsLocalStorageServer(storageServer) && !HasBaiduLabel([storageServer])
  }

  /** A label that auto-uploads is not blank and is neither the backend nor
      Baidu Netdisk as a storage target; "other_local" does auto-upload. */
  lemma AutoUploadIsRemote(storageServer: string)
    ensures ShouldAutoUploadToCore(storageServer) ==>
              && !IsBlank(storageServer)
              && NormalizeStorageTarget(storageServer) != Ok(Backend)
              && NormalizeStorageTarget(storageServer) != Ok(BaiduNetdisk)
    ensures LowerTrim(storageServer) == OtherLocal ==> ShouldAutoUploadToCore(storageServer)
  {
    TargetSpellings(storageServer);
    if IsBlank(storageServer) {
      assert LowerTrim(storageServer) == "";
    }
  }

  /** pickFirstNonEmpty: the first value that is not blank, trimmed; "" when
      every value is blank. */
  method PickFirstNonEmpty(values: seq<string>) returns (r: string)
    ensures r == "" <==> forall i :: 0 <= i < |values| ==> IsBlank(values[i])
    ensures r != "" ==> exists i :: 0 <= i < |values| && r == TrimSpace(values[i])
                                    && forall j :: 0 <= j < i ==> IsBlank(values[j])
    ensures IsTrimmed(r)
  {
    for i := 0 to |values|
      invariant forall j :: 0 <= j < i ==> IsBlank(values[j])
    {
      var trimmed := TrimSpace(values[i]);
      if trimmed != "" {
        TrimSpaceEnds(values[i]);
        return trimmed;
      }
    }
    return "";
  }

  /** The key UploadModelFile uploads to a core server with: core_server_key,
      else core_server_name, else the storage_server label when that names
      a core server; "" means no core upload. */
  method ChooseCoreServerKey(coreServerKey: string, coreServerName: string, storageServer: string)
    returns (key: string)
    ensures !IsBlank(coreServerKey) ==> key == TrimSpace(coreServerKey)
    ensures IsBlank(coreServerKey) && !IsBlank(coreServerName) ==> key == TrimSpace(coreServerName)
    ensures IsBlank(coreServerKey) && IsBlank(coreServerName) ==>
              key == (if ShouldAutoUploadToCore(storageServer) then TrimSpace(storageServer) else "")
    ensures IsTrimmed(key)
  {
    var candidates := [coreServerKey, coreServerName];
    key := PickFirstNonEmpty(candidates);
    if !IsBlank(coreServerKey) || !IsBlank(coreServerName) {
      assert !IsBlank(candidates[0]) || !IsBlank(candidates[1]);
      var i :| 0 <= i < |candidates| && key == TrimSpace(candidates[i])
               && forall j :: 0 <= j < i ==> IsBlank(candidates[j]);
      assert i == 1 ==> IsBlank(candidates[0]);
    }
    if key == "" && ShouldAutoUploadToCore(storageServer) {
      key := TrimSpace(storageServer);
      TrimSpaceEnds(storageServer);
    }
  }

  // ---------------------------------------------------- failure statuses

  /** The status UploadModelFile answers a failed save with. */
  function SaveFailureStatus(err: Error): (r: int)
  {
    if Is(err, InvalidUploadFile) || Is(err, InvalidStorageTarget) then 400 else 500
  }

  /** A missing file and a storage target that does not normalise are the
      client's fault; a missing path service is the server's. */
  lemma SaveRefusalStatus(paths: Option<PathService>, file: Option<FileHeader>, artifactName: string,
                          storageTarget: string, storageServer: string, suffix: string)
    ensures var saved := PrepareSave(paths, file, Weights, artifactName, storageTarget, storageServer, false, suffix);
      && ((file.None? || IsBlank(file.value.filename)) ==> saved.Err? && SaveFailureStatus(saved.error) == 400)
      && (file.Some? && !IsBlank(file.value.filename) && paths.Some?
          && TrimSpace(storageTarget) != "" && NormalizeStorageTarget(storageTarget).Err?
          ==> saved.Err? && SaveFailureStatus(saved.error) == 400)
      && (file.Some? && !IsBlank(file.value.filename) && paths.None?
          ==> saved.Err? && SaveFailureStatus(saved.error) == 500)
  {
    if file.None? || IsBlank(file.value.filename) {
      SaveRejectsMissingFile(paths, file, Weights, artifactName, storageTarget, storageServer, false, suffix);
    } else if paths.Some? && TrimSpace(storageTarget) != "" && NormalizeStorageTarget(storageTarget).Err? {
      SaveRejectsInvalidTarget(paths, file, Weights, artifactName, storageTarget, storageServer, suffix);
    } else if paths.None? {
      assert PrepareSave(paths, file, Weights, artifactName, storageTarget, storageServer, false, suffix)
             == Err(ArtifactPathServiceNil);
    }
  }

  /** The status UploadModelFile answers a failed core upload with. */
  function CoreUploadFailureStatus(err: Error): (r: int)
  {
    if Is(err, CoreServerKeyRequired) || Is(err, CoreServerNotFound) || Is(err, SSHServerPortInvalid)
       || Is(err, SSHFilePathRequired) || Is(err, InvalidStorageTarget)
    then 400
    else 500
  }

  /** How each refusal of the core-server lookup is answered: a missing
      Redis client or a Redis fault is a server error, a blank or unknown
      key a client error, and a payload that does not decode keeps the
      status of the decoder's error. */
  lemma CoreLookupStatus(client: Option<RedisClient>, key: string, decode: Decoder)
    requires GetCoreServerByKey(client, key, decode).Err?
    ensures client.None? ==> CoreUploadFailureStatus(GetCoreServerByKey(client, key, decode).error) == 500
    ensures client.Some? && IsBlank(key) ==>
              CoreUploadFailureStatus(GetCoreServerByKey(client, key, decode).error) == 400
    ensures client.Some? && !IsBlank(key) && client.value.fault.Some? ==>
              CoreUploadFailureStatus(GetCoreServerByKey(client, key, decode).error) == 500
    ensures client.Some? && !IsBlank(key) && client.value.fault.None?
            && (TrimSpace(key) !in client.value.hash || IsBlank(client.value.hash[TrimSpace(key)])) ==>
              CoreUploadFailureStatus(GetCoreServerByKey(client, key, decode).error) == 400
    ensures client.Some? && !IsBlank(key) && client.value.fault.None?
            && TrimSpace(key) in client.value.hash && !IsBlank(client.value.hash[TrimSpace(key)]) ==>
              var payload := TrimSpace(client.value.hash[TrimSpace(key)]);
              decode(payload).Err?
              && CoreUploadFailureStatus(GetCoreServerByKey(client, key, decode).error)
                 == CoreUploadFailureStatus(decode(payload).error)
  {
    var e := GetCoreServerByKey(client, key, decode).error;
    if client.None? {
      assert e == RedisNotInitialized;
      assert CoreUploadFailureStatus(RedisNotInitialized) == 500;
    } else if IsBlank(key) {
      assert e == CoreServerKeyRequired;
      assert CoreUploadFailureStatus(CoreServerKeyRequired) == 400;
    } else if client.value.fault.Some? {
      CoreLookupFault(client.value, key, decode);
    } else if TrimSpace(key) !in client.value.hash || IsBlank(client.value.hash[TrimSpace(key)]) {
      assert e == CoreServerNotFound;
      assert CoreUploadFailureStatus(CoreServerNotFound) == 400;
    } else {
      CoreLookupDecode(client.value, key, decode);
    }
  }

  lemma CoreLookupFault(c: RedisClient, key: string, decode: Decoder)
    requires !IsBlank(key) && c.fault.Some?
    ensures CoreUploadFailureStatus(GetCoreServerByKey(Some(c), key, decode).error) == 500
  {
    var prefix := "hget " + CoreServersHashKey + " failed (key=" + TrimSpace(key) + "): ";
    var inner := Foreign(c.fault.value);
    assert GetCoreServerByKey(Some(c), key, decode) == Err(Wrapped(prefix, inner, ""));
    WrappedCoreStatus(prefix, inner, "");
    assert CoreUploadFailureStatus(inner) == 500;
  }

  lemma CoreLookupDecode(c: RedisClient, key: string, decode: Decoder)
    requires !IsBlank(key) && c.fault.None?
    requires TrimSpace(key) in c.hash && !IsBlank(c.hash[TrimSpace(key)])
    requires GetCoreServerByKey(Some(c), key, decode).Err?
    ensures var payload := TrimSpace(c.hash[TrimSpace(key)]);
      && decode(payload).Err?
      && CoreUploadFailureStatus(GetCoreServerByKey(Some(c), key, decode).error)
         == CoreUploadFailureStatus(decode(payload).error)
  {
    var payload := TrimSpace(c.hash[TrimSpace(key)]);
    var prefix := "parse core server failed (key=" + TrimSpace(key) + "): ";
    assert GetCoreServerByKey(Some(c), key, decode) == Err(Wrapped(prefix, decode(payload).error, ""));
    WrappedCoreStatus(prefix, decode(payload).error, "");
  }

  lemma WrappedCoreStatus(prefix: string, err: Error, suffix: string)
    ensures CoreUploadFailureStatus(Wrapped(prefix, err, suffix)) == CoreUploadFailureStatus(err)
  {
    var w := Wrapped(prefix, err, suffix);
    assert Is(w, CoreServerKeyRequired) == Is(err, CoreServerKeyRequired);
    assert Is(w, CoreServerNotFound) == Is(err, CoreServerNotFound);
    assert Is(w, SSHServerPortInvalid) == Is(err, SSHServerPortInvalid);
    assert Is(w, SSHFilePathRequired) == Is(err, SSHFilePathRequired);
    assert Is(w, InvalidStorageTarget) == Is(err, InvalidStorageTarget);
  }

  /** The key UploadModelFile chooses is trimmed, so a lookup with a chosen
      key is never refused as blank, and the server it finds carries the
      key itself. */
  lemma ChosenKeyLookup(client: Option<RedisClient>, key: string, decode: Decoder)
    requires key != "" && IsTrimmed(key)
    ensures GetCoreServerByKey(client, key, decode) != Err(CoreServerKeyRequired)
    ensures GetCoreServerByKey(client, key, decode).Ok? ==> GetCoreServerByKey(client, key, decode).value.key == key
  {
    TrimSpaceOfTrimmed(key);
  }

  /** The status both download handlers answer a failed Baidu download with. */
  function DownloadFailureStatus(err: Error): (r: int)
  {
    if Is(err, InvalidDownloadCategory) || Is(err, InvalidBaiduDownloadPath) || Is(err, InvalidBaiduDownloadFile)
       || Is(err, InvalidLocalDownloadFile) || Is(err, BaiduDownloadTargetRequired)
       || Is(err, BaiduPanAccessTokenRequired) || Is(err, InvalidStorageTarget)
    then 400
    else 500
  }

  /** The refusals the download service makes before downloading, once
      it has a downloader and a path service. */
  predicate PlanRefusal(e: Error)
  {
    e in {InvalidBaiduDownloadPath, InvalidDownloadCategory, InvalidLocalDownloadFile,
          InvalidBaiduDownloadFile, InvalidStorageTarget, BaiduDownloadTargetRequired}
  }

  /** Once the download service has a downloader and a path service, every
      check it makes before downloading refuses with a client error; without
      either it refuses with a server error. */
  lemma DownloadPlanStatus(hasDownloader: bool, paths: Option<PathService>, remotePath: string,
                           category: string, fileName: string)
    requires BaiduPan.DownloadPlan(hasDownloader, paths, remotePath, category, fileName).Err?
    ensures DownloadFailureStatus(BaiduPan.DownloadPlan(hasDownloader, paths, remotePath, category, fileName).error)
            == (if hasDownloader && paths.Some? then 400 else 500)
  {
    var e := BaiduPan.DownloadPlan(hasDownloader, paths, remotePath, category, fileName).error;
    if hasDownloader && paths.Some? {
      PlanRefusals(paths.value, remotePath, category, fileName);
      assert PlanRefusal(e);
    } else {
      assert e == BaiduDownloaderNil || e == ArtifactPathServiceNil;
    }
  }

  lemma PlanRefusals(paths: PathService, remotePath: string, category: string, fileName: string)
    requires BaiduPan.DownloadPlan(true, Some(paths), remotePath, category, fileName).Err?
    ensures PlanRefusal(BaiduPan.DownloadPlan(true, Some(paths), remotePath, category, fileName).error)
  {
    var remote := BaiduPan.NormalizeBaiduRemotePath(remotePath);
    var cat := NormalizeCategory(category);
    if remote.Ok? && cat.Ok? {
      var target := BaiduPan.BuildTargetFileName(remote.value, fileName);
      if target.Ok? {
        CanonicalCategory(cat.value);
        CanonicalTarget(Backend);
        PlainNameAccepted(target.value);
        var built := BuildPath(paths, cat.value, Backend, target.value);
        assert built.Err? ==> built.error == InvalidStorageTarget;
      }
    }
  }

  // -------------------------------------------------- adding a location

  /** Adding one label to a normalised location set keeps the set in place
      and appends the trimmed label unless it is already there. */
  lemma AddLabel(servers: seq<string>, entry: string)
    requires IsClean(servers) && entry != "" && IsTrimmed(entry)
    ensures Apply(servers, ActionAdd, [entry]) == Ok(if entry in servers then servers else servers + [entry])
    ensures entry in Apply(servers, ActionAdd, [entry]).value
  {
    AddIsAdd();
    ApplyAdd(servers, ActionAdd, [entry]);
    NormalizeOfClean(servers);
    assert IsClean([entry]);
    NormalizeOfClean([entry]);
    FilterOne(entry, servers);
  }

  lemma AddIsAdd()
    ensures ToLower(TrimSpace(ActionAdd)) == "add"
  {
    LowerTrimOfKey(ActionAdd);
  }

  lemma FilterOne(entry: string, drop: seq<string>)
    ensures LocationSet.Filter([entry], drop) == (if entry in drop then [] else [entry])
  {
    assert [entry][..0] == [];
  }

  /** After a cloud download the model keeps every location it had
      (so still names Baidu Netdisk) and gains the backend. */
  lemma DownloadAddsBackend(servers: seq<string>)
    requires IsClean(servers) && HasBaiduLabel(servers)
    ensures Apply(servers, ActionAdd, [Backend]).Ok?
    ensures |Apply(servers, ActionAdd, [Backend]).value| >= |servers|
    ensures var after := Apply(servers, ActionAdd, [Backend]).value;
      && after[..|servers|] == servers
      && Backend in after
      && HasBaiduLabel(after)
  {
    assert IsTrimmed(Backend);
    AddLabel(servers, Backend);
    var after := Apply(servers, ActionAdd, [Backend]).value;
    var i :| 0 <= i < |servers| && IsBaiduStorageServer(servers[i]);
    assert after[i] == servers[i];
  }

  // ------------------------------------------------ the model controller

  /** What a download request is answered with: the file as an attachment,
      or a status with its "error" text. */
  datatype Reply = Attachment(path: string, name: string) | Failure(status: int, message: string)

  /** writeHTTPError as a reply. */
  function FailureOf(err: Error): (r: Reply)
    ensures r.Failure? && (r.status, r.message) == Status(err)
  {
    Failure(Status(err).0, Status(err).1)
  }

  /** The outcome of the checks DownloadModelFile makes before it looks at
      any file: a reply, or what the rest of the handler works with. */
  datatype Prep =
    | Stop(reply: Reply)
    | Ready(id: nat, fileName: string, localPath: string, servers: seq<string>)

  /** fileExists: a regular file is at the path. */
  predicate FileExists(local: map<string, LocalEntry>, path: string)
  {
    path in local && local[path].File?
  }

  class ModelController {
    const records: RecordService
    const downloads: BaiduPan.DownloadService?

    ghost predicate Valid()
      reads this, records, records.table
    {
      records.Valid() && records.kind == ModelKind
    }

    constructor (records: RecordService, downloads: BaiduPan.DownloadService?)
      requires records.Valid() && records.kind == ModelKind
      ensures Valid() && this.records == records && this.downloads == downloads
    {
      this.records := records;
      this.downloads := downloads;
    }

    /** DownloadModelFile up to the file checks: parse the id, load the
        record, take the base name of its trimmed weight name, resolve its
        backend path and read its location set. */
    function Prepared(param: string): (p: Prep)
      reads this, records, records.table
      ensures p.Ready? ==> ParseUintPathParam(param, "id") == Ok(p.id) && p.id in records.table.rows
      ensures p.Ready? ==> IsClean(p.servers) && records.table.GetStorageServersByID(p.id) == Ok(p.servers)
      ensures p.Ready? ==> records.ResolveFilePathByID(p.id, Backend) == Ok(p.localPath)
      ensures p.Ready? ==> p.fileName != "" && (p.fileName == "/" || '/' !in p.fileName)
      ensures ParseUintPathParam(param, "id").Err? ==> p == Stop(Failure(400, ErrorText(ParseUintPathParam(param, "id").error)))
      ensures ParseUintPathParam(param, "id").Ok? && records.table.FindByID(ParseUintPathParam(param, "id").value) == Err(RecordNotFound)
              ==> p == Stop(Failure(404, "record not found"))
    {
      var parsed := ParseUintPathParam(param, "id");
      if parsed.Err? then Stop(Failure(400, ErrorText(parsed.error)))
      else
        var id := parsed.value;
        var found := records.table.FindByID(id);
        if found.Err? then
          if Is(found.error, RecordNotFound) then Stop(Failure(404, "record not found")) else Stop(FailureOf(found.error))
        else
          var name := TrimSpace(TextColumn(found.value, FileColumn(records.kind)));
          if name == "" then Stop(Failure(400, "model weight_name is empty"))
          else
            var localPath := records.ResolveFilePathByID(id, Backend);
            if localPath.Err? then Stop(FailureOf(localPath.error))
            else
              var servers := records.table.GetStorageServersByID(id);
              if servers.Err? then Stop(FailureOf(servers.error))
              else
                BaseShape(name);
                Ready(id, Base(name), localPath.value, servers.value)
    }

    /** The file is served under the base name of the record's trimmed
        weight name. */
    lemma PreparedFileName(param: string)
      ensures var p := Prepared(param);
              p.Ready? ==> p.id in records.table.rows
                           && p.fileName == Base(TrimSpace(TextColumn(records.table.rows[p.id], FileColumn(records.kind))))
    {
    }

    /** DownloadModelFile: serve the backend copy when there is one;
        otherwise, when the location set names Baidu Netdisk, download the
        file into the backend, add "backend" to the location set and serve
        the download. */
    method DownloadModelFile(param: string) returns (reply: Reply)
      requires Valid()
      modifies records.table, downloads
      ensures Valid()
      ensures old(Prepared(param)).Stop? ==> reply == old(Prepared(param)).reply
      ensures old(Prepared(param)).Ready? ==>
                var p := old(Prepared(param));
                && (FileExists(records.local, p.localPath) ==> reply == Attachment(p.localPath, p.fileName))
                && (!FileExists(records.local, p.localPath) && !HasBaiduLabel(p.servers) ==>
                      reply == Failure(404, "model file not found in backend and baidu_netdisk is not configured"))
                && (!FileExists(records.local, p.localPath) && HasBaiduLabel(p.servers) && downloads == null ==>
                      reply == Failure(500, "download service is nil"))
                && (reply.Attachment? && reply.path != p.localPath ==>
                      && downloads != null && reply.path in downloads.local
                      && reply.name == p.fileName
                      && HasBaiduLabel(p.servers)
                      && records.table.GetStorageServersByID(p.id) == Apply(p.servers, ActionAdd, [Backend]))
      ensures reply.Failure? ==> records.table.rows == old(records.table.rows)
    {
      var p := Prepared(param);
      if p.Stop? {
        return p.reply;
      }
      reply := Serve(p.id, p.fileName, p.localPath, p.servers);
    }

    /** The rest of DownloadModelFile, once the record is known. */
    method Serve(id: nat, fileName: string, localPath: string, servers: seq<string>) returns (reply: Reply)
      requires Valid()
      requires records.table.GetStorageServersByID(id) == Ok(servers)
      modifies records.table, downloads
      ensures Valid()
      ensures FileExists(records.local, localPath) ==> reply == Attachment(localPath, fileName)
      ensures !FileExists(records.local, localPath) && !HasBaiduLabel(servers) ==>
                reply == Failure(404, "model file not found in backend and baidu_netdisk is not configured")
      ensures !FileExists(records.local, localPath) && HasBaiduLabel(servers) && downloads == null ==>
                reply == Failure(500, "download service is nil")
      ensures reply.Failure? ==> records.table.rows == old(records.table.rows)
      ensures reply.Attachment? && reply.path != localPath ==>
                && downloads != null && reply.path in downloads.local
                && reply.name == fileName
                && HasBaiduLabel(servers)
                && records.table.GetStorageServersByID(id) == Apply(servers, ActionAdd, [Backend])
    {
      if FileExists(records.local, localPath) {
        return Attachment(localPath, fileName);
      }
      var cloud := ContainsBaiduStorage(servers);
      if !cloud {
        return Failure(404, "model file not found in backend and baidu_netdisk is not configured");
      }
      if downloads == null {
        return Failure(500, "download service is nil");
      }
      reply := Fetch(id, fileName, servers);
    }

    /** The cloud branch of DownloadModelFile: download the record's Baidu
        Netdisk copy into the backend and add "backend" to its location set. */
    method Fetch(id: nat, fileName: string, servers: seq<string>) returns (reply: Reply)
      requires Valid() && downloads != null
      requires records.table.GetStorageServersByID(id) == Ok(servers)
      modifies records.table, downloads
      ensures Valid()
      ensures reply.Failure? ==> records.table.rows == old(records.table.rows)
      ensures reply.Attachment? ==>
                && reply.path in downloads.local
                && reply.name == fileName
                && records.table.GetStorageServersByID(id) == Apply(servers, ActionAdd, [Backend])
    {
      var remote := records.ResolveFilePathByID(id, BaiduNetdisk);
      if remote.Err? {
        return FailureOf(remote.error);
      }
      var result := DownloadVia(downloads, remote.value, Weights, fileName);
      if result.Err? {
        return Failure(DownloadFailureStatus(result.error), ErrorText(result.error));
      }
      var updated := records.table.UpdateStorageServersByID(id, ActionAdd, [Backend]);
      if updated.Err? {
        return FailureOf(updated.error);
      }
      return Attachment(result.value.localPath, fileName);
    }
  }

  /** A download through the Baidu Netdisk service, as the controllers use
      it: a successful download leaves the file on the local file system. */
  method DownloadVia(downloads: BaiduPan.DownloadService, remotePath: string, category: string, fileName: string)
    returns (r: Result<BaiduPan.DownloadResult>)
    modifies downloads
    ensures r.Ok? ==> r.value.localPath in downloads.local
  {
    r := downloads.DownloadToLocal(remotePath, category, fileName);
  }

  /** The record-driven half of resolveDownloadInput: the record's Baidu
      Netdisk path, the category of its kind, and the given file name or
      else the record's own. */
  function RecordInput(service: RecordService, kind: RecordKind, id: nat, fileName: string)
    : Result<(string, string, string)>
    reads service, service.table
  {
    match service.ResolveFilePathByID(id, BaiduNetdisk)
    case Err(e) => Err(e)
    case Ok(remote) =>
      var category := if kind == ModelRecord then Weights else Datasets;
      if fileName != "" then Ok((remote, category, fileName))
      else match service.table.FindFileNameByID(id)
        case Err(e) => Err(e)
        case Ok(name) => Ok((remote, category, name))
  }

  // ------------------------------------------------ the Baidu controller

  /** The JSON body of POST /v1/baidu/download. */
  datatype BaiduDownloadRequest = BaiduDownloadRequest(
    remotePath: string, category: string, subdir: string, fileName: string, storageTarget: string,
    modelID: Option<nat>, modelName: string, datasetID: Option<nat>, datasetName: string,
    localStorageServer: string)

  predicate WantsModel(req: BaiduDownloadRequest)
  {
    req.modelID.Some? || !IsBlank(req.modelName)
  }

  predicate WantsDataset(req: BaiduDownloadRequest)
  {
    req.datasetID.Some? || !IsBlank(req.datasetName)
  }

  /** storageSyncTarget: the record whose location set a download updates,
      if any. */
  datatype RecordKind = NoRecord | ModelRecord | DatasetRecord
  datatype SyncTarget = SyncTarget(kind: RecordKind, id: nat)

  /** What was recorded about a synced record. */
  datatype SyncReport = SyncReport(kind: RecordKind, id: nat, storageServers: seq<string>, storageServer: string)

  datatype BaiduReply =
    | Refused(status: int, message: string)
    | Downloaded(result: BaiduPan.DownloadResult, synced: Option<SyncReport>)

  class BaiduController {
    const models: RecordService
    const datasets: RecordService
    const downloads: BaiduPan.DownloadService
    const paths: Option<PathService>

    ghost predicate Valid()
      reads this, models, models.table, datasets, datasets.table
    {
      models.Valid() && models.kind == ModelKind && datasets.Valid() && datasets.kind == DatasetKind
    }

    constructor (models: RecordService, datasets: RecordService, downloads: BaiduPan.DownloadService,
                 paths: Option<PathService>)
      requires models.Valid() && models.kind == ModelKind && datasets.Valid() && datasets.kind == DatasetKind
      ensures Valid()
      ensures this.models == models && this.datasets == datasets && this.downloads == downloads && this.paths == paths
    {
      this.models := models;
      this.datasets := datasets;
      this.downloads := downloads;
      this.paths := paths;
    }

    /** What resolveSyncTarget promises about a lookup by name: the row
        has the trimmed name (for a model, the first in the order of the
        models query), and not found means no row has it. */
    ghost predicate FoundByName(req: BaiduDownloadRequest, r: Result<SyncTarget>)
      reads this, models, models.table, datasets, datasets.table
    {
      && (r.Ok? && r.value.kind == ModelRecord && req.modelID.None? ==>
          r.value.id in models.table.rows
          && Column(models.table.rows[r.value.id], "name") == Text(TrimSpace(req.modelName))
          && TakenFirst(models.table.rows, r.value.id, TrimSpace(req.modelName)))
      && (r.Ok? && r.value.kind == DatasetRecord && req.datasetID.None? ==>
          r.value.id in datasets.table.rows
          && Column(datasets.table.rows[r.value.id], "name") == Text(TrimSpace(req.datasetName)))
      && (WantsModel(req) && !WantsDataset(req) && req.modelID.None? && models.table.connected ==>
          (r == Err(RecordNotFound)
           <==> forall k :: k in models.table.rows ==> Column(models.table.rows[k], "name") != Text(TrimSpace(req.modelName))))
      && (!WantsModel(req) && WantsDataset(req) && req.datasetID.None? && datasets.table.connected ==>
          (r == Err(RecordNotFound)
           <==> forall k :: k in datasets.table.rows ==> Column(datasets.table.rows[k], "name") != Text(TrimSpace(req.datasetName))))
    }

    /** resolveSyncTarget: at most one of the two records may be named; an
        ID is taken as it is, a name is looked up. */
    method ResolveSyncTarget(req: BaiduDownloadRequest) returns (r: Result<SyncTarget>)
      requires Valid()
      ensures WantsModel(req) && WantsDataset(req) ==>
                r == Err(Message("only one of model target or dataset target can be provided"))
      ensures !WantsModel(req) && !WantsDataset(req) ==> r == Ok(SyncTarget(NoRecord, 0))
      ensures WantsModel(req) && !WantsDataset(req) && req.modelID.Some? ==> r == Ok(SyncTarget(ModelRecord, req.modelID.value))
      ensures !WantsModel(req) && WantsDataset(req) && req.datasetID.Some? ==>
                r == Ok(SyncTarget(DatasetRecord, req.datasetID.value))
      ensures FoundByName(req, r)
      ensures r.Ok? ==> (r.value.kind == ModelRecord <==> WantsModel(req)) && (r.value.kind == DatasetRecord <==> WantsDataset(req))
    {
      var modelTarget := WantsModel(req);
      var datasetTarget := WantsDataset(req);
      if modelTarget && datasetTarget {
        return Err(Message("only one of model target or dataset target can be provided"));
      }
      if modelTarget {
        if req.modelID.Some? {
          return Ok(SyncTarget(ModelRecord, req.modelID.value));
        }
        TrimSpaceIdempotent(req.modelName);
        var found := models.table.FindByName(TrimSpace(req.modelName));
        if found.Err? {
          return Err(found.error);
        }
        return Ok(SyncTarget(ModelRecord, found.value));
      }
      if datasetTarget {
        if req.datasetID.Some? {
          return Ok(SyncTarget(DatasetRecord, req.datasetID.value));
        }
        TrimSpaceIdempotent(req.datasetName);
        var found := datasets.table.FindByName(TrimSpace(req.datasetName));
        if found.Err? {
          return Err(found.error);
        }
        return Ok(SyncTarget(DatasetRecord, found.value));
      }
      return Ok(SyncTarget(NoRecord, 0));
    }

    /** The service of a record kind. */
    function ServiceOf(kind: RecordKind): RecordService
      reads this
    {
      if kind == ModelRecord then models else datasets
    }

    /** resolveDownloadInput: an explicit remote path is used as given (a
        blank category defaulting by the record kind); without one the
        record is downloaded from its Baidu Netdisk path, under its own
        category and, unless a file name is given, under its stored name. */
    function DownloadInput(req: BaiduDownloadRequest, target: SyncTarget): (r: Result<(string, string, string)>)
      reads this, models, models.table, datasets, datasets.table
      ensures !IsBlank(req.remotePath) ==>
                && r.Ok? && r.value.0 == TrimSpace(req.remotePath) && r.value.2 == TrimSpace(req.fileName)
                && (!IsBlank(req.category) ==> r.value.1 == TrimSpace(req.category))
                && (IsBlank(req.category) ==> r.value.1 in {Weights, Datasets}
                                              && (r.value.1 == Datasets <==> target.kind == DatasetRecord))
      ensures IsBlank(req.remotePath) && target.kind == NoRecord ==>
                r == Err(Message("remote_path is required when model/dataset target is not provided"))
      ensures IsBlank(req.remotePath) && target.kind != NoRecord && IsBlank(req.storageTarget) ==>
                r == Err(Message("storage_target is required when remote_path is empty"))
      ensures IsBlank(req.remotePath) && target.kind != NoRecord && !IsBlank(req.storageTarget) && paths.None? ==>
                r == Err(ArtifactPathServiceNil)
      ensures IsBlank(req.remotePath) && target.kind != NoRecord && !IsBlank(req.storageTarget) && paths.Some?
              && NormalizeStorageTarget(req.storageTarget).Ok? && NormalizeStorageTarget(req.storageTarget) != Ok(BaiduNetdisk) ==>
                r == Err(Message("record driven download requires storage_target=" + BaiduNetdisk))
      ensures IsBlank(req.remotePath) && r.Ok? ==>
                && target.kind != NoRecord
                && NormalizeStorageTarget(req.storageTarget) == Ok(BaiduNetdisk)
                && ServiceOf(target.kind).ResolveFilePathByID(target.id, BaiduNetdisk) == Ok(r.value.0)
                && r.value.1 == (if target.kind == ModelRecord then Weights else Datasets)
                && r.value.2 != ""
                && (IsBlank(req.fileName) ==> ServiceOf(target.kind).table.FindFileNameByID(target.id) == Ok(r.value.2))
    {
      var remotePath := TrimSpace(req.remotePath);
      var category := TrimSpace(req.category);
      var fileName := TrimSpace(req.fileName);
      if remotePath != "" then
        Ok((remotePath, if category != "" then category else if target.kind == DatasetRecord then Datasets else Weights,
            fileName))
      else if target.kind == NoRecord then Err(Message("remote_path is required when model/dataset target is not provided"))
      else if IsBlank(req.storageTarget) then Err(Message("storage_target is required when remote_path is empty"))
      else if paths.None? then Err(ArtifactPathServiceNil)
      else match NormalizeStorageTarget(req.storageTarget)
        case Err(e) => Err(e)
        case Ok(normalized) =>
          if normalized != BaiduNetdisk then Err(Message("record driven download requires storage_target=" + BaiduNetdisk))
          else RecordInput(ServiceOf(target.kind), target.kind, target.id, fileName)
    }

    /** A category chosen by the controller (a default or the record's
        own) is one the download service accepts unchanged. */
    lemma ChosenCategoryAccepted(req: BaiduDownloadRequest, target: SyncTarget)
      requires DownloadInput(req, target).Ok?
      requires IsBlank(req.remotePath) || IsBlank(req.category)
      ensures NormalizeCategory(DownloadInput(req, target).value.1) == Ok(DownloadInput(req, target).value.1)
      ensures target.kind == DatasetRecord ==> DownloadInput(req, target).value.1 == Datasets
      ensures target.kind == ModelRecord ==> DownloadInput(req, target).value.1 == Weights
    {
      CanonicalCategory(DownloadInput(req, target).value.1);
    }

    /** syncRecordStorageServer: add the label to the location set of the
        record, if there is one. */
    method SyncRecordStorageServer(target: SyncTarget, entry: string) returns (r: Result<seq<string>>)
      requires Valid()
      modifies models.table, datasets.table
      ensures Valid()
      ensures target.kind == NoRecord ==>
                r == Ok([]) && models.table.rows == old(models.table.rows) && datasets.table.rows == old(datasets.table.rows)
      ensures target.kind == ModelRecord ==>
                && datasets.table.rows == old(datasets.table.rows)
                && (old(models.table.GetStorageServersByID(target.id)).Err? ==>
                      r == old(models.table.GetStorageServersByID(target.id)))
                && (old(models.table.GetStorageServersByID(target.id)).Ok? ==>
                      r == Apply(old(models.table.GetStorageServersByID(target.id)).value, ActionAdd, [entry]))
                && (r.Ok? ==> models.table.GetStorageServersByID(target.id) == r)
                && (r.Err? ==> models.table.rows == old(models.table.rows))
      ensures target.kind == DatasetRecord ==>
                && models.table.rows == old(models.table.rows)
                && (old(datasets.table.GetStorageServersByID(target.id)).Err? ==>
                      r == old(datasets.table.GetStorageServersByID(target.id)))
                && (old(datasets.table.GetStorageServersByID(target.id)).Ok? ==>
                      r == Apply(old(datasets.table.GetStorageServersByID(target.id)).value, ActionAdd, [entry]))
                && (r.Ok? ==> datasets.table.GetStorageServersByID(target.id) == r)
                && (r.Err? ==> datasets.table.rows == old(datasets.table.rows))
    {
      match target.kind {
        case ModelRecord =>
          r := models.table.UpdateStorageServersByID(target.id, ActionAdd, [entry]);
        case DatasetRecord =>
          r := datasets.table.UpdateStorageServersByID(target.id, ActionAdd, [entry]);
        case NoRecord =>
          r := Ok([]);
      }
    }

    /** DownloadFileToLocal: resolve the record and the download input,
        download, and add the local label (blank meaning "backend") to the
        record's location set. */
    method DownloadFileToLocal(req: BaiduDownloadRequest) returns (reply: BaiduReply)
      requires Valid()
      modifies models.table, datasets.table, downloads
      ensures Valid()
      ensures reply.Downloaded? ==> reply.result.localPath in downloads.local
      ensures reply.Downloaded? && reply.synced.None? ==>
                !WantsModel(req) && !WantsDataset(req) && unchanged(models.table`rows, datasets.table`rows)
      ensures reply.Downloaded? && reply.synced.Some? ==>
                var s := reply.synced.value;
                && s.kind != NoRecord
                && NormalizeStorageServer(req.localStorageServer) in s.storageServers
                && s.storageServer == s.storageServers[0]
                && IsClean(s.storageServers)
                && ServiceOf(s.kind).table.GetStorageServersByID(s.id) == Ok(s.storageServers)
      ensures reply.Refused? ==> unchanged(models.table`rows, datasets.table`rows)
      ensures WantsModel(req) && WantsDataset(req) ==>
                reply == Refused(400, "only one of model target or dataset target can be provided")
    {
      var target := ResolveTargetKind(req);
      if target.Err? {
        return Refused(400, ErrorText(target.error));
      }
      reply := DownloadForTarget(req, target.value);
    }

    /** resolveSyncTarget as DownloadFileToLocal uses it: two named records
        are refused, and the target is no record iff none is named. */
    method ResolveTargetKind(req: BaiduDownloadRequest) returns (r: Result<SyncTarget>)
      requires Valid()
      ensures WantsModel(req) && WantsDataset(req) ==>
                r == Err(Message("only one of model target or dataset target can be provided"))
      ensures r.Ok? ==> (r.value.kind == NoRecord <==> !WantsModel(req) && !WantsDataset(req))
    {
      r := ResolveSyncTarget(req);
    }

    /** DownloadFileToLocal once the record is resolved: resolve the
        download input, then download and sync. */
    method DownloadForTarget(req: BaiduDownloadRequest, target: SyncTarget) returns (reply: BaiduReply)
      requires Valid()
      modifies models.table, datasets.table, downloads
      ensures Valid()
      ensures reply.Downloaded? ==> reply.result.localPath in downloads.local
      ensures reply.Downloaded? && reply.synced.None? ==>
                target.kind == NoRecord && unchanged(models.table`rows, datasets.table`rows)
      ensures reply.Downloaded? && reply.synced.Some? ==>
                var s := reply.synced.value;
                && s.kind == target.kind && s.kind != NoRecord
                && NormalizeStorageServer(req.localStorageServer) in s.storageServers
                && s.storageServer == s.storageServers[0]
                && IsClean(s.storageServers)
                && ServiceOf(s.kind).table.GetStorageServersByID(s.id) == Ok(s.storageServers)
      ensures reply.Refused? ==> unchanged(models.table`rows, datasets.table`rows)
    {
      var input := DownloadInput(req, target);
      if input.Err? {
        return Refused(400, ErrorText(input.error));
      }
      var (remotePath, category, fileName) := input.value;
      reply := DownloadAndSync(target, remotePath, category, fileName,
                               NormalizeStorageServer(req.localStorageServer));
    }

    /** The second half of DownloadFileToLocal: download, then add the
        label to the location set of the target record, if there is one. */
    method DownloadAndSync(target: SyncTarget, remotePath: string, category: string, fileName: string, entry: string)
      returns (reply: BaiduReply)
      requires Valid() && entry != "" && IsTrimmed(entry)
      modifies models.table, datasets.table, downloads
      ensures Valid()
      ensures reply.Downloaded? ==> reply.result.localPath in downloads.local
      ensures reply.Downloaded? && reply.synced.None? ==>
                target.kind == NoRecord && unchanged(models.table`rows, datasets.table`rows)
      ensures reply.Downloaded? && reply.synced.Some? ==>
                var s := reply.synced.value;
                && s.kind == target.kind && s.kind != NoRecord
                && entry in s.storageServers
                && s.storageServer == s.storageServers[0]
                && IsClean(s.storageServers)
                && ServiceOf(s.kind).table.GetStorageServersByID(s.id) == Ok(s.storageServers)
      ensures reply.Refused? ==> unchanged(models.table`rows, datasets.table`rows)
    {
      var result := DownloadVia(downloads, remotePath, category, fileName);
      if result.Err? {
        return Refused(DownloadFailureStatus(result.error), ErrorText(result.error));
      }
      if target.kind == NoRecord {
        return Downloaded(result.value, None);
      }
      var servers := AddLocalLabel(target, entry);
      if servers.Err? {
        var (status, message) := Status(servers.error);
        return Refused(status, message);
      }
      var primary := if |servers.value| > 0 then servers.value[0] else "";
      return Downloaded(result.value, Some(SyncReport(target.kind, target.id, servers.value, primary)));
    }

    /** The record-updating half of DownloadFileToLocal: the label lands in
        the record's clean location set. */
    method AddLocalLabel(target: SyncTarget, entry: string) returns (servers: Result<seq<string>>)
      requires Valid() && target.kind != NoRecord
      requires entry != "" && IsTrimmed(entry)
      modifies models.table, datasets.table
      ensures Valid()
      ensures servers.Ok? ==>
                && entry in servers.value
                && IsClean(servers.value)
                && ServiceOf(target.kind).table.GetStorageServersByID(target.id) == servers
      ensures servers.Err? ==> unchanged(models.table`rows, datasets.table`rows)
    {
      ghost var before := ServiceOf(target.kind).table.GetStorageServersByID(target.id);
      servers := SyncRecordStorageServer(target, entry);
      if servers.Ok? {
        AddLabel(before.value, entry);
      }
    }
  }
}
