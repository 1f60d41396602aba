/** The Baidu Netdisk client (service/baidupan_upload_service.go and
    service/baidupan_download_service.go): credential checks, remote
    directory and path normalisation, and the names files are stored under.
    The SDK call itself is an oracle: the error it fails with, if any. */
module BaiduPan {
  import opened Wrappers
  import opened GoStrings
  import opened GoPath
  import opened ArtifactPaths

  const DefaultBaiduPanLogPath: string := "logs/baiduPanSDK.log"

  /** The baidu_pan section of the application configuration. */
  datatype BaiduPanConfig = BaiduPanConfig(accessToken: string, isSVIP: bool, logPath: string)

  /** The credentials an uploader or downloader hands to the SDK. */
  datatype Client = Client(accessToken: string, isSVIP: bool, logPath: string)

  /** NewBaiduPanUploaderFromConfig (and NewBaiduPanDownloaderFromConfig,
      which copies it): a missing configuration counts as an empty one; the
      token is trimmed and a blank log path becomes the default. */
  function ClientFromConfig(cfg: Option<BaiduPanConfig>): (c: Client)
    ensures c.logPath != "" && IsTrimmed(c.logPath) && IsTrimmed(c.accessToken)
    ensures cfg.Some? && !IsBlank(cfg.value.logPath) ==> c.logPath == TrimSpace(cfg.value.logPath)
    ensures cfg.Some? ==> c.accessToken == TrimSpace(cfg.value.accessToken) && c.isSVIP == cfg.value.isSVIP
  {
    var conf := if cfg.Some? then cfg.value else BaiduPanConfig("", false, "");
    var logPath := TrimSpace(conf.logPath);
    TrimSpaceEnds(conf.logPath);
    TrimSpaceEnds(conf.accessToken);
    DefaultLogPathTrimmed();
    Client(TrimSpace(conf.accessToken), conf.isSVIP, if logPath == "" then DefaultBaiduPanLogPath else logPath)
  }

  lemma DefaultLogPathTrimmed()
    ensures IsTrimmed(DefaultBaiduPanLogPath)
  {
  }

  /** Without a configuration there is no token, so every call is refused. */
  lemma NoConfigNoToken()
    ensures ClientFromConfig(None) == Client("", false, DefaultBaiduPanLogPath)
  {
    DefaultLogPathTrimmed();
    TrimSpaceOfTrimmed("");
  }

  /** The trimmed text made absolute and cleaned, unless that is the root. */
  function AbsoluteClean(value: string): (r: Option<string>)
    ensures r.Some? ==> Rooted(r.value) && r.value != "/" && Clean(r.value) == r.value
  {
    var rooted := if HasPrefix(value, "/") then value else "/" + value;
    var cleaned := Clean(rooted);
    CleanRooted(rooted);
    CleanIdempotent(rooted);
    if cleaned == "." || cleaned == "/" then None else Some(cleaned)
  }

  /** normalizeBaiduRemoteDir */
  function NormalizeBaiduRemoteDir(remoteDir: string): (r: Result<string>)
    ensures r.Err? ==> r.error == InvalidBaiduRemoteDir
    ensures r.Ok? ==> Rooted(r.value) && r.value != "/" && Clean(r.value) == r.value
    ensures IsBlank(remoteDir) ==> r.Err?
  {
    var value := TrimSpace(remoteDir);
    if value == "" then Err(InvalidBaiduRemoteDir)
    else match AbsoluteClean(value)
      case Some(d) => Ok(d)
      case None => Err(InvalidBaiduRemoteDir)
  }

  /** normalizeBaiduRemotePath: the same normalisation with the download
      error. */
  function NormalizeBaiduRemotePath(remotePath: string): (r: Result<string>)
    ensures r.Err? ==> r.error == InvalidBaiduDownloadPath
    ensures r.Ok? ==> Rooted(r.value) && r.value != "/" && Clean(r.value) == r.value
    ensures IsBlank(remotePath) ==> r.Err?
  {
    var value := TrimSpace(remotePath);
    if value == "" then Err(InvalidBaiduDownloadPath)
    else match AbsoluteClean(value)
      case Some(p) => Ok(p)
      case None => Err(InvalidBaiduDownloadPath)
  }

  /** Both normalisations accept the same texts and agree on the result. */
  lemma RemoteDirAndPathAgree(s: string)
    ensures NormalizeBaiduRemoteDir(s).Ok? <==> NormalizeBaiduRemotePath(s).Ok?
    ensures NormalizeBaiduRemoteDir(s).Ok? ==> NormalizeBaiduRemoteDir(s).value == NormalizeBaiduRemotePath(s).value
  {
  }

  /** A normalised directory is accepted as itself. */
  lemma NormalizeBaiduRemoteDirFixedPoint(remoteDir: string)
    requires NormalizeBaiduRemoteDir(remoteDir).Ok?
    requires IsTrimmed(NormalizeBaiduRemoteDir(remoteDir).value)
    ensures NormalizeBaiduRemoteDir(NormalizeBaiduRemoteDir(remoteDir).value) == NormalizeBaiduRemoteDir(remoteDir)
  {
    var d := NormalizeBaiduRemoteDir(remoteDir).value;
    TrimSpaceOfTrimmed(d);
  }

  /** BaiduPanUploader.Upload: the token, then the remote directory, then the
      local base name are checked before the SDK is called; the file lands at
      the clean join of the directory and the base name. */
  function Upload(u: Client, localPath: string, remoteDir: string, sdkFailure: Option<Error>): (r: Result<string>)
    ensures IsBlank(u.accessToken) ==> r == Err(BaiduPanAccessTokenRequired)
    ensures !IsBlank(u.accessToken) && NormalizeBaiduRemoteDir(remoteDir).Err? ==> r == Err(InvalidBaiduRemoteDir)
    ensures r.Ok? ==> sdkFailure.None? && NormalizeBaiduRemoteDir(remoteDir).Ok?
                      && r.value == Join(NormalizeBaiduRemoteDir(remoteDir).value, Base(localPath))
    ensures sdkFailure.Some? ==> r.Err?
  {
    if TrimSpace(u.accessToken) == "" then Err(BaiduPanAccessTokenRequired)
    else
      var normalizedDir :- NormalizeBaiduRemoteDir(remoteDir);
      var baseName := Base(localPath);
      if TrimSpace(baseName) == "" || baseName == "." || baseName == "/" then Err(InvalidUploadFile)
      else
        var remotePath := Join(normalizedDir, baseName);
        if sdkFailure.Some? then Err(Wrapped("upload file to baidu pan failed: ", sdkFailure.value, ""))
        else Ok(remotePath)
  }

  /** A local file whose base name is "", "." or "/" is refused once the
      token and directory pass. */
  lemma UploadRejectsBadBaseName(u: Client, localPath: string, remoteDir: string, sdkFailure: Option<Error>)
    requires !IsBlank(u.accessToken) && NormalizeBaiduRemoteDir(remoteDir).Ok?
    requires IsBlank(Base(localPath)) || Base(localPath) == "." || Base(localPath) == "/"
    ensures Upload(u, localPath, remoteDir, sdkFailure) == Err(InvalidUploadFile)
  {
  }

  /** Unless its base name is "..", the uploaded file lands directly in the
      normalised directory under its own base name. */
  lemma UploadLandsInDir(u: Client, localPath: string, remoteDir: string)
    requires Upload(u, localPath, remoteDir, None).Ok?
    requires Base(localPath) != ".."
    ensures Upload(u, localPath, remoteDir, None).value
            == NormalizeBaiduRemoteDir(remoteDir).value + "/" + Base(localPath)
    ensures Base(Upload(u, localPath, remoteDir, None).value) == Base(localPath)
  {
    var d := NormalizeBaiduRemoteDir(remoteDir).value;
    var b := Base(localPath);
    BaseShape(localPath);
    CleanStackOfDir(d);
    JoinUnderRoot(d, b);
    BaseBelow(d, b);
  }

  /** A clean rooted directory other than the root has elements. */
  lemma CleanStackOfDir(d: string)
    requires Rooted(d) && Clean(d) == d && d != "/"
    ensures CleanStack(d) != []
  {
  }

  /** BaiduPanDownloader.Download: the token, then the remote path, then a
      blank local path are refused before the SDK is called. */
  function Download(d: Client, remotePath: string, localPath: string, sdkFailure: Option<Error>): (r: Option<Error>)
    ensures IsBlank(d.accessToken) ==> r == Some(BaiduPanAccessTokenRequired)
    ensures !IsBlank(d.accessToken) && NormalizeBaiduRemotePath(remotePath).Err? ==> r == Some(InvalidBaiduDownloadPath)
    ensures !IsBlank(d.accessToken) && NormalizeBaiduRemotePath(remotePath).Ok? && IsBlank(localPath)
            ==> r == Some(InvalidLocalDownloadFile)
    ensures r.None? <==> (!IsBlank(d.accessToken) && NormalizeBaiduRemotePath(remotePath).Ok?
                          && !IsBlank(localPath) && sdkFailure.None?)
  {
    if TrimSpace(d.accessToken) == "" then Some(BaiduPanAccessTokenRequired)
    else match NormalizeBaiduRemotePath(remotePath)
      case Err(e) => Some(e)
      case Ok(_) =>
        if TrimSpace(localPath) == "" then Some(InvalidLocalDownloadFile)
        else if sdkFailure.Some? then Some(Wrapped("download file from baidu pan failed: ", sdkFailure.value, ""))
        else None
  }

  /** buildTargetFileName: a non-blank custom name reduced to its base name,
      else the base name of the remote path. */
  function BuildTargetFileName(remotePath: string, fileName: string): (r: Result<string>)
    ensures r.Ok? ==> IsPlainName(r.value)
    ensures !IsBlank(fileName) ==> (r.Err? <==> NormalizeArtifactFileName(TrimSpace(fileName)).Err?)
    ensures IsBlank(fileName) ==> (r.Err? <==> NormalizeArtifactFileName(remotePath).Err?)
    ensures !IsBlank(fileName) && r.Err? ==> r.error == InvalidLocalDownloadFile
    ensures IsBlank(fileName) && r.Err? ==> r.error == InvalidBaiduDownloadFile
    ensures r.Ok? && !IsBlank(fileName) ==> r.value == NormalizeArtifactFileName(TrimSpace(fileName)).value
    ensures r.Ok? && IsBlank(fileName) ==> r.value == NormalizeArtifactFileName(remotePath).value
  {
    var custom := TrimSpace(fileName);
    if custom != "" then
      NormalizedIsPlain(custom);
      match NormalizeArtifactFileName(custom)
      case Err(_) => Err(InvalidLocalDownloadFile)
      case Ok(name) => Ok(name)
    else
      NormalizedIsPlain(remotePath);
      match NormalizeArtifactFileName(remotePath)
      case Err(_) => Err(InvalidBaiduDownloadFile)
      case Ok(name) => Ok(name)
  }

  datatype DownloadResult = DownloadResult(
    remotePath: string, localPath: string, fileName: string, category: string, size: int)

  /** The checks DownloadToLocal makes before it calls the downloader: the
      normalised remote path, category and target name, and the backend
      path the file is written to. */
  function DownloadPlan(hasDownloader: bool, paths: Option<PathService>, remotePath: string,
                        category: string, fileName: string)
    : (r: Result<(string, string, string, string)>)
    ensures !hasDownloader ==> r == Err(BaiduDownloaderNil)
    ensures hasDownloader && paths.None? ==> r == Err(ArtifactPathServiceNil)
    ensures r.Ok? ==> NormalizeBaiduRemotePath(remotePath) == Ok(r.value.0)
    ensures r.Ok? ==> NormalizeCategory(category) == Ok(r.value.1)
    ensures r.Ok? ==> BuildTargetFileName(r.value.0, fileName) == Ok(r.value.2)
    ensures r.Ok? ==> paths.Some? && BuildPath(paths.value, r.value.1, Backend, r.value.2) == Ok(r.value.3)
  {
    if !hasDownloader then Err(BaiduDownloaderNil)
    else if paths.None? then Err(ArtifactPathServiceNil)
    else
      var normalizedRemote :- NormalizeBaiduRemotePath(remotePath);
      match NormalizeCategory(category)
      case Err(_) => Err(InvalidDownloadCategory)
      case Ok(normalizedCategory) =>
        var targetFile :- BuildTargetFileName(normalizedRemote, fileName);
        var localPath :- BuildPath(paths.value, normalizedCategory, Backend, targetFile);
        if TrimSpace(localPath) == "" then Err(BaiduDownloadTargetRequired)
        else Ok((normalizedRemote, normalizedCategory, targetFile, localPath))
  }

  /** A category that does not normalise is reported as an invalid download
      category, once the downloader, path service and remote path pass. */
  lemma DownloadRejectsCategory(paths: PathService, remotePath: string, category: string, fileName: string)
    requires NormalizeBaiduRemotePath(remotePath).Ok? && NormalizeCategory(category).Err?
    ensures DownloadPlan(true, Some(paths), remotePath, category, fileName) == Err(InvalidDownloadCategory)
  {
  }

  /** A blank category downloads into the backend weights root. */
  lemma BlankCategoryIsWeights(paths: PathService, remotePath: string, category: string, fileName: string)
    requires IsBlank(category)
    requires DownloadPlan(true, Some(paths), remotePath, category, fileName).Ok?
    ensures var plan := DownloadPlan(true, Some(paths), remotePath, category, fileName).value;
      plan.1 == Weights && Ok(plan.3) == BuildPath(paths, Weights, Backend, plan.2)
  {
    CategorySpellings(category);
  }

  /** BaiduDownloadService: the path resolver, the downloader (a function
      from the remote and local paths to the bytes written, or an error),
      and the local file system. */
  class DownloadService {
    const paths: Option<PathService>
    const downloader: Option<(string, string) -> Result<seq<int>>>
    var local: map<string, seq<int>>

    constructor (paths: Option<PathService>, downloader: Option<(string, string) -> Result<seq<int>>>,
                 local: map<string, seq<int>>)
      ensures this.paths == paths && this.downloader == downloader && this.local == local
    {
      this.paths := paths;
      this.downloader := downloader;
      this.local := local;
    }

    /** DownloadToLocal: validate, then download the normalised remote path
        into the backend root of the category; downloader errors are
        returned unchanged. */
    method DownloadToLocal(remotePath: string, category: string, fileName: string)
      returns (r: Result<DownloadResult>)
      modifies this
      ensures var plan := DownloadPlan(downloader.Some?, paths, remotePath, category, fileName);
        && (plan.Err? ==> r == Err(plan.error) && local == old(local))
        && (plan.Ok? ==>
              var (remote, cat, name, target) := plan.value;
              var fetched := downloader.value(remote, target);
              && (fetched.Err? ==> r == Err(fetched.error) && local == old(local))
              && (fetched.Ok? ==>
                    && r == Ok(DownloadResult(remote, target, name, cat, |fetched.value|))
                    && local == old(local)[target := fetched.value]))
    {
      if downloader.None? {
        return Err(BaiduDownloaderNil);
      }
      if paths.None? {
        return Err(ArtifactPathServiceNil);
      }
      var normalizedRemote := NormalizeBaiduRemotePath(remotePath);
      if normalizedRemote.Err? {
        return Err(normalizedRemote.error);
      }
      var normalizedCategory := NormalizeCategory(category);
      if normalizedCategory.Err? {
        return Err(InvalidDownloadCategory);
      }
      var targetFile := BuildTargetFileName(normalizedRemote.value, fileName);
      if targetFile.Err? {
        return Err(targetFile.error);
      }
      var localPath := BuildPath(paths.value, normalizedCategory.value, Backend, targetFile.value);
      if localPath.Err? {
        return Err(localPath.error);
      }
      if TrimSpace(localPath.value) == "" {
        return Err(BaiduDownloadTargetRequired);
      }
      var fetched := downloader.value(normalizedRemote.value, localPath.value);
      if fetched.Err? {
        return Err(fetched.error);
      }
      local := local[localPath.value := fetched.value];
      return Ok(DownloadResult(normalizedRemote.value, localPath.value, targetFile.value,
                               normalizedCategory.value, |fetched.value|));
    }
  }
}
