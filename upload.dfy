/** The upload orchestrator (service/upload_service.go): pick the storage
    target, name the stored file, write it below the backend or other_local
    root, and push it on to Baidu Netdisk when that target was chosen. */
module Upload {
  import opened Wrappers
  import opened GoStrings
  import opened ArtifactPaths

  /** The multipart header of the uploaded file: its client-side name and
      the bytes it carries. */
  datatype FileHeader = FileHeader(filename: string, content: seq<int>)

  datatype UploadResult = UploadResult(
    fileName: string, savedPath: string, resolvedPath: string, paths: ArtifactPathSet,
    size: int, storageServer: string, storageTarget: string,
    uploadToBaidu: bool, baiduUploaded: bool, baiduPath: string)

  /** normalizeStorageServer: blank means "backend", anything else is
      trimmed. */
  function NormalizeStorageServer(storageServer: string): (r: string)
    ensures r != "" && IsTrimmed(r)
    ensures IsBlank(storageServer) ==> r == Backend
    ensures !IsBlank(storageServer) ==> r == TrimSpace(storageServer)
  {
    var value := TrimSpace(storageServer);
    TrimSpaceEnds(storageServer);
    if value == "" then Backend else value
  }

  lemma NormalizeStorageServerIdempotent(s: string)
    ensures NormalizeStorageServer(NormalizeStorageServer(s)) == NormalizeStorageServer(s)
  {
    TrimSpaceOfTrimmed(NormalizeStorageServer(s));
  }

  /** isBaiduStorageServer: the label is a Baidu synonym, in any case and
      with any surrounding space. */
  predicate IsBaiduStorageServer(storageServer: string)
  {
    LowerTrim(storageServer) in BaiduSynonyms
  }

  /** A label names Baidu Netdisk exactly when it normalises to that target. */
  lemma BaiduLabelIsBaiduTarget(server: string)
    ensures IsBaiduStorageServer(server) <==> NormalizeStorageTarget(server) == Ok(BaiduNetdisk)
  {
    TargetSpellings(server);
  }

  /** resolveUploadTarget, as a value: the normalised target and whether the
      file goes on to Baidu Netdisk. */
  function UploadTarget(storageTarget: string, storageServer: string, uploadToBaidu: bool): (r: Result<(string, bool)>)
    ensures r.Ok? ==> r.value.0 in {Backend, BaiduNetdisk, OtherLocal}
    ensures r.Ok? ==> r.value.1 == (r.value.0 == BaiduNetdisk)
    ensures r.Err? ==> r.error == InvalidStorageTarget
  {
    var c0 := TrimSpace(storageTarget);
    var c1 := if uploadToBaidu then BaiduNetdisk else c0;
    var c2 := if c1 == "" && IsBaiduStorageServer(storageServer) then BaiduNetdisk else c1;
    var c3 := if c2 == "" then Backend else c2;
    match NormalizeStorageTarget(c3)
    case Ok(t) => Ok((t, t == BaiduNetdisk))
    case Err(e) => Err(e)
  }

  /** resolveUploadTarget: the candidate is the trimmed target, overridden
      by the legacy flag, then by a Baidu storage label, then defaulted. */
  method ResolveUploadTarget(storageTarget: string, storageServer: string, uploadToBaidu: bool)
    returns (r: Result<(string, bool)>)
    ensures r == UploadTarget(storageTarget, storageServer, uploadToBaidu)
  {
    var candidate := TrimSpace(storageTarget);
    if uploadToBaidu {
      candidate := BaiduNetdisk;
    }
    if candidate == "" && IsBaiduStorageServer(storageServer) {
      candidate := BaiduNetdisk;
    }
    if candidate == "" {
      candidate := Backend;
    }
    var normalized := NormalizeStorageTarget(candidate);
    if normalized.Err? {
      return Err(normalized.error);
    }
    return Ok((normalized.value, normalized.value == BaiduNetdisk));
  }

  /** The four tiers: the legacy flag forces Baidu Netdisk; else a given
      target is normalised (and may be refused); else a Baidu storage label
      selects Baidu Netdisk; else the backend. */
  lemma UploadTargetTiers(storageTarget: string, storageServer: string, uploadToBaidu: bool)
    ensures uploadToBaidu ==> UploadTarget(storageTarget, storageServer, uploadToBaidu) == Ok((BaiduNetdisk, true))
    ensures !uploadToBaidu && TrimSpace(storageTarget) != "" ==>
      UploadTarget(storageTarget, storageServer, uploadToBaidu)
        == (match NormalizeStorageTarget(storageTarget)
            case Ok(t) => Ok((t, t == BaiduNetdisk))
            case Err(e) => Err(e))
    ensures !uploadToBaidu && TrimSpace(storageTarget) == "" && IsBaiduStorageServer(storageServer) ==>
      UploadTarget(storageTarget, storageServer, uploadToBaidu) == Ok((BaiduNetdisk, true))
    ensures !uploadToBaidu && TrimSpace(storageTarget) == "" && !IsBaiduStorageServer(storageServer) ==>
      UploadTarget(storageTarget, storageServer, uploadToBaidu) == Ok((Backend, false))
  {
    CanonicalBaidu();
    CanonicalBackend();
    if !uploadToBaidu && TrimSpace(storageTarget) != "" {
      TrimTarget(storageTarget);
    }
  }

  /** Normalising the trimmed target is normalising the target. */
  lemma TrimTarget(target: string)
    ensures NormalizeStorageTarget(TrimSpace(target)) == NormalizeStorageTarget(target)
  {
    TrimSpaceIdempotent(target);
  }

  /** The target the file is written to: the backend stands in for Baidu
      Netdisk, which only receives a copy. */
  function WriteTarget(target: string): string
  {
    if target == BaiduNetdisk then Backend else target
  }

  /** Everything save decides before it writes: validation, the target, the
      stored name, the three candidate paths and the path written. */
  function PrepareSave(paths: Option<PathService>, file: Option<FileHeader>, category: string,
                       artifactName: string, storageTarget: string, storageServer: string,
                       uploadToBaidu: bool, suffix: string): (r: Result<UploadResult>)
  {
    if file.None? || TrimSpace(file.value.filename) == "" then Err(InvalidUploadFile)
    else if paths.None? then Err(ArtifactPathServiceNil)
    else
      var ps := paths.value;
      var server := NormalizeStorageServer(storageServer);
      var (target, toBaidu) :- UploadTarget(storageTarget, server, uploadToBaidu);
      var name :- GenerateStoredFileName(artifactName, file.value.filename, suffix);
      var all :- BuildAllPaths(ps, category, name);
      var resolved := BuildPath(ps, category, WriteTarget(target), name).value;
      Ok(UploadResult(name, resolved, resolved, all, |file.value.content|, server, target,
                      toBaidu, false, ""))
  }

  /** The Baidu Netdisk root of the category, which an accepted upload always has. */
  lemma BaiduRootResolves(ps: PathService, category: string, name: string)
    requires BuildAllPaths(ps, category, name).Ok?
    ensures ResolveRoot(ps, category, BaiduNetdisk).Ok?
  {
  }

  /** UploadService: the path resolver, the Baidu uploader (a function from
      the local path and the remote directory to the remote path or an
      error), and the local file system the files are written to. */
  class UploadService {
    const paths: Option<PathService>
    const uploader: Option<(string, string) -> Result<string>>
    var fs: map<string, seq<int>>

    constructor (paths: Option<PathService>, uploader: Option<(string, string) -> Result<string>>,
                 fs: map<string, seq<int>>)
      ensures this.paths == paths && this.uploader == uploader && this.fs == fs
    {
      this.paths := paths;
      this.uploader := uploader;
      this.fs := fs;
    }

    /** save: write locally first; push to Baidu Netdisk only when that is
        the target, and fail (leaving the local copy written) when there is
        no uploader or the push fails. */
    method Save(file: Option<FileHeader>, category: string, artifactName: string,
                storageTarget: string, storageServer: string, uploadToBaidu: bool, suffix: string)
      returns (r: Result<UploadResult>)
      modifies this
      ensures var pre := PrepareSave(paths, file, category, artifactName, storageTarget,
                                     storageServer, uploadToBaidu, suffix);
        && (pre.Err? ==> r == pre && fs == old(fs))
        && (pre.Ok? ==> fs == old(fs)[pre.value.resolvedPath := file.value.content])
        && (pre.Ok? && !pre.value.uploadToBaidu ==> r == pre)
        && (pre.Ok? && pre.value.uploadToBaidu && uploader.None? ==> r == Err(BaiduUploaderNil))
        && (pre.Ok? && pre.value.uploadToBaidu && uploader.Some? ==>
              BaiduRoot(paths.value, category).Ok? &&
              var remote := uploader.value(pre.value.resolvedPath, BaiduRoot(paths.value, category).value);
              r == (if remote.Ok? then Ok(pre.value.(baiduUploaded := true, baiduPath := remote.value))
                    else Err(remote.error)))
    {
      r := WriteLocal(file, category, artifactName, storageTarget, storageServer, uploadToBaidu, suffix);
      if r.Err? || !r.value.uploadToBaidu {
        return;
      }
      if uploader.None? {
        return Err(BaiduUploaderNil);
      }
      PreparedHasBaiduRoot(paths, file, category, artifactName, storageTarget, storageServer, uploadToBaidu, suffix);
      var baiduRemoteDir := BaiduRoot(paths.value, category).value;
      var remotePath := uploader.value(r.value.resolvedPath, baiduRemoteDir);
      if remotePath.Err? {
        return Err(remotePath.error);
      }
      return Ok(r.value.(baiduUploaded := true, baiduPath := remotePath.value));
    }

    /** The local half of save: check the request, write the file under the
        resolved path and describe the upload, with no Baidu push yet. */
    method WriteLocal(file: Option<FileHeader>, category: string, artifactName: string,
                      storageTarget: string, storageServer: string, uploadToBaidu: bool, suffix: string)
      returns (r: Result<UploadResult>)
      modifies this`fs
      ensures r == PrepareSave(paths, file, category, artifactName, storageTarget,
                               storageServer, uploadToBaidu, suffix)
      ensures r.Err? ==> fs == old(fs)
      ensures r.Ok? ==> fs == old(fs)[r.value.resolvedPath := file.value.content]
    {
      if file.None? || TrimSpace(file.value.filename) == "" {
        return Err(InvalidUploadFile);
      }
      if paths.None? {
        return Err(ArtifactPathServiceNil);
      }
      var ps := paths.value;
      var normalizedStorageServer := NormalizeStorageServer(storageServer);
      var resolved := ResolveUploadTarget(storageTarget, normalizedStorageServer, uploadToBaidu);
      if resolved.Err? {
        return Err(resolved.error);
      }
      var (normalizedStorageTarget, actualUploadToBaidu) := resolved.value;
      var stored := GenerateStoredFileName(artifactName, file.value.filename, suffix);
      if stored.Err? {
        return Err(stored.error);
      }
      var storedFileName := stored.value;
      var all := BuildAllPaths(ps, category, storedFileName);
      if all.Err? {
        return Err(all.error);
      }
      var writeTarget := normalizedStorageTarget;
      if normalizedStorageTarget == BaiduNetdisk {
        writeTarget := Backend;
      }
      var resolvedPath := BuildPath(ps, category, writeTarget, storedFileName).value;
      fs := fs[resolvedPath := file.value.content];
      return Ok(UploadResult(storedFileName, resolvedPath, resolvedPath, all.value,
                             |file.value.content|, normalizedStorageServer,
                             normalizedStorageTarget, actualUploadToBaidu, false, ""));
    }
  }

  /** An accepted upload's category has a Baidu Netdisk root. */
  lemma PreparedHasBaiduRoot(paths: Option<PathService>, file: Option<FileHeader>, category: string,
                             artifactName: string, storageTarget: string, storageServer: string,
                             uploadToBaidu: bool, suffix: string)
    requires PrepareSave(paths, file, category, artifactName, storageTarget, storageServer, uploadToBaidu, suffix).Ok?
    ensures paths.Some? && BaiduRoot(paths.value, category).Ok?
  {
    var server := NormalizeStorageServer(storageServer);
    assert UploadTarget(storageTarget, server, uploadToBaidu).Ok?;
    var name := GenerateStoredFileName(artifactName, file.value.filename, suffix);
    assert name.Ok? && BuildAllPaths(paths.value, category, name.value).Ok?;
    BaiduRootResolves(paths.value, category, name.value);
  }

  /** The category's Baidu Netdisk root, which the push sends the file to. */
  function BaiduRoot(ps: PathService, category: string): Result<string>
  {
    ResolveRoot(ps, category, BaiduNetdisk)
  }

  /** A missing header or a blank file name is refused before anything else. */
  lemma SaveRejectsMissingFile(paths: Option<PathService>, file: Option<FileHeader>, category: string,
                               artifactName: string, storageTarget: string, storageServer: string,
                               uploadToBaidu: bool, suffix: string)
    requires file.None? || IsBlank(file.value.filename)
    ensures PrepareSave(paths, file, category, artifactName, storageTarget, storageServer,
                        uploadToBaidu, suffix) == Err(InvalidUploadFile)
  {
  }

  /** A storage target that does not normalise is refused before a name is
      generated or a file written. */
  lemma SaveRejectsInvalidTarget(paths: Option<PathService>, file: Option<FileHeader>, category: string,
                                 artifactName: string, storageTarget: string, storageServer: string,
                                 suffix: string)
    requires file.Some? && !IsBlank(file.value.filename) && paths.Some?
    requires TrimSpace(storageTarget) != "" && NormalizeStorageTarget(storageTarget).Err?
    ensures PrepareSave(paths, file, category, artifactName, storageTarget, storageServer,
                        false, suffix) == Err(InvalidStorageTarget)
  {
    UploadTargetTiers(storageTarget, NormalizeStorageServer(storageServer), false);
  }

  /** Where an accepted upload is written: the stored name below the write
      target's root (the backend root when the target is Baidu Netdisk),
      with the three candidate paths of that name alongside. */
  lemma SavePaths(paths: Option<PathService>, file: Option<FileHeader>, category: string,
                  artifactName: string, storageTarget: string, storageServer: string,
                  uploadToBaidu: bool, suffix: string)
    requires PrepareSave(paths, file, category, artifactName, storageTarget, storageServer,
                         uploadToBaidu, suffix).Ok?
    ensures var res := PrepareSave(paths, file, category, artifactName, storageTarget, storageServer,
                                   uploadToBaidu, suffix).value;
      && res.fileName == GenerateStoredFileName(artifactName, file.value.filename, suffix).value
      && res.paths == BuildAllPaths(paths.value, category, res.fileName).value
      && res.savedPath == res.resolvedPath
      && res.resolvedPath == (if res.storageTarget == OtherLocal then res.paths.otherLocalPath
                              else res.paths.backendPath)
      && res.uploadToBaidu == (res.storageTarget == BaiduNetdisk)
      && res.size == |file.value.content|
      && !res.baiduUploaded
  {
  }
}
