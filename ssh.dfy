/** The SSH/SFTP artifact transfer engine (service/ssh_artifact_transfer_service.go):
    a table of named server configurations with a default fallback, remote
    path normalisation, and the presence and conflict decisions that move an
    artifact between the backend roots of this host and the other_local
    roots of a remote one.  The remote host is a map from path to content
    with upload, download and existence checks; every client the factory
    opens is recorded as a session. */
module SSHTransfer {
  import opened Wrappers
  import opened GoStrings
  import opened GoPath
  import opened ArtifactPaths

  const DefaultStaticServerIP: string := "192.168.1.100"
  const DefaultSSHServerPort: int := 22
  const DefaultSSHServerUser: string := "root"
  /** 15 seconds, in nanoseconds as time.Duration counts them. */
  const DefaultSSHTimeout: int := 15_000_000_000

  datatype ServerConfig = ServerConfig(
    name: string, ip: string, port: int, user: string, privateKeyPath: string, timeout: int)

  datatype TransferResult = TransferResult(
    serverName: string, serverIP: string, direction: string, category: string,
    fileName: string, sourcePath: string, targetPath: string, bytes: int)

  datatype SearchResult = SearchResult(
    serverName: string, serverIP: string, fileName: string,
    weightsPath: string, datasetsPath: string,
    existsInWeights: bool, existsInDatasets: bool, anyExists: bool,
    matchedRemotePath: string)

  /** An entry of the local file system. */
  datatype LocalEntry = File(content: seq<int>) | Dir

  /** The client factory: absent, or one that opens clients unless it fails
      with the given error. */
  datatype ClientFactory = NilFactory | Factory(failure: Option<Error>)

  predicate ValidPort(port: int)
  {
    1 <= port <= 65535
  }

  /** normalizeServerConfig: trim the text fields, default a zero port and a
      non-positive timeout, then check the port, IP, user and key path in
      that order. */
  function NormalizeServerConfig(cfg: ServerConfig): (r: Result<ServerConfig>)
    ensures r.Ok? ==> ValidPort(r.value.port) && r.value.timeout > 0 && r.value.name == cfg.name
    ensures r.Ok? ==> r.value.ip != "" && IsTrimmed(r.value.ip)
    ensures r.Ok? ==> r.value.user != "" && IsTrimmed(r.value.user)
    ensures r.Ok? ==> r.value.privateKeyPath != "" && IsTrimmed(r.value.privateKeyPath)
    ensures r.Ok? && cfg.port != 0 ==> r.value.port == cfg.port
    ensures r.Ok? && cfg.timeout > 0 ==> r.value.timeout == cfg.timeout
    ensures r.Ok? ==> r.value.ip == TrimSpace(cfg.ip) && r.value.user == TrimSpace(cfg.user)
                      && r.value.privateKeyPath == TrimSpace(cfg.privateKeyPath)
    ensures r.Ok? && cfg.port == 0 ==> r.value.port == DefaultSSHServerPort
    ensures r.Ok? && cfg.timeout <= 0 ==> r.value.timeout == DefaultSSHTimeout
  {
    TrimSpaceEnds(cfg.ip);
    TrimSpaceEnds(cfg.user);
    TrimSpaceEnds(cfg.privateKeyPath);
    var port := if cfg.port == 0 then DefaultSSHServerPort else cfg.port;
    var n := cfg.(ip := TrimSpace(cfg.ip), user := TrimSpace(cfg.user),
                  privateKeyPath := TrimSpace(cfg.privateKeyPath), port := port);
    if !ValidPort(n.port) then Err(SSHServerPortInvalid)
    else
      var n := n.(timeout := if n.timeout <= 0 then DefaultSSHTimeout else n.timeout);
      if n.ip == "" then Err(SSHServerIPRequired)
      else if n.user == "" then Err(SSHUserRequired)
      else if n.privateKeyPath == "" then Err(SSHPrivateKeyPathRequired)
      else Ok(n)
  }

  /** The checks fail in order: port, then IP, then user, then key path. */
  lemma ServerConfigErrors(cfg: ServerConfig)
    ensures cfg.port != 0 && !ValidPort(cfg.port) ==> NormalizeServerConfig(cfg) == Err(SSHServerPortInvalid)
    ensures (cfg.port == 0 || ValidPort(cfg.port)) && IsBlank(cfg.ip) ==>
      NormalizeServerConfig(cfg) == Err(SSHServerIPRequired)
    ensures (cfg.port == 0 || ValidPort(cfg.port)) && !IsBlank(cfg.ip) && IsBlank(cfg.user) ==>
      NormalizeServerConfig(cfg) == Err(SSHUserRequired)
    ensures ((cfg.port == 0 || ValidPort(cfg.port)) && !IsBlank(cfg.ip) && !IsBlank(cfg.user)
             && IsBlank(cfg.privateKeyPath)) ==>
      NormalizeServerConfig(cfg) == Err(SSHPrivateKeyPathRequired)
    ensures ((cfg.port == 0 || ValidPort(cfg.port)) && !IsBlank(cfg.ip) && !IsBlank(cfg.user)
             && !IsBlank(cfg.privateKeyPath)) ==> NormalizeServerConfig(cfg).Ok?
  {
  }

  /** A normalised configuration is its own normal form, and the name plays
      no part in normalisation. */
  lemma NormalizeServerConfigIdempotent(cfg: ServerConfig, name: string)
    requires NormalizeServerConfig(cfg).Ok?
    ensures NormalizeServerConfig(NormalizeServerConfig(cfg).value.(name := name))
            == Ok(NormalizeServerConfig(cfg).value.(name := name))
  {
    var n := NormalizeServerConfig(cfg).value;
    TrimSpaceOfTrimmed(n.ip);
    TrimSpaceOfTrimmed(n.user);
    TrimSpaceOfTrimmed(n.privateKeyPath);
  }

  /** resolveServerWithPort: the configuration stored under the trimmed name,
      or the default one when there is none, renamed to the requested name;
      a positive port overrides the configured one. */
  function ResolveServer(configs: map<string, ServerConfig>, defaultServer: ServerConfig,
                         serverName: string, port: int): (r: Result<ServerConfig>)
    ensures r.Ok? ==> r.value.name == TrimSpace(serverName) && r.value.name != ""
    ensures r.Ok? ==> ValidPort(r.value.port)
    ensures r.Ok? && port > 0 ==> r.value.port == port
    ensures IsBlank(serverName) ==> r == Err(SSHServerNameRequired)
  {
    var name := TrimSpace(serverName);
    if name == "" then Err(SSHServerNameRequired)
    else
      var base := if name in configs then configs[name] else defaultServer;
      var normalized :- NormalizeServerConfig(base);
      var n := normalized.(name := name, port := if port > 0 then port else normalized.port);
      if !ValidPort(n.port) then Err(SSHServerPortInvalid) else Ok(n)
  }

  /** A name without an entry resolves to the default server under that
      name: never an error when the default is valid and the port is. */
  lemma UnknownServerFallsBack(configs: map<string, ServerConfig>, defaultServer: ServerConfig,
                               serverName: string, port: int)
    requires !IsBlank(serverName) && TrimSpace(serverName) !in configs
    requires NormalizeServerConfig(defaultServer).Ok?
    requires port <= 0 || ValidPort(port)
    ensures ResolveServer(configs, defaultServer, serverName, port).Ok?
    ensures ResolveServer(configs, defaultServer, serverName, port).value.ip
            == NormalizeServerConfig(defaultServer).value.ip
  {
  }

  /** After SetServerConfig stores a configuration, resolving that name with
      no port override yields exactly what was stored. */
  lemma SetThenResolve(configs: map<string, ServerConfig>, defaultServer: ServerConfig,
                       serverName: string, cfg: ServerConfig)
    requires !IsBlank(serverName) && NormalizeServerConfig(cfg).Ok?
    ensures var name := TrimSpace(serverName);
      var stored := NormalizeServerConfig(cfg).value.(name := name);
      ResolveServer(configs[name := stored], defaultServer, serverName, 0) == Ok(stored)
  {
    NormalizeServerConfigIdempotent(cfg, TrimSpace(serverName));
  }

  /** normalizeRemoteFilePath: Windows separators to '/', trimmed, made
      absolute and cleaned; an empty text or the bare root is refused. */
  function NormalizeRemoteFilePath(rawPath: string): (r: Result<string>)
    ensures r.Err? ==> r.error == SSHFilePathRequired
    ensures r.Ok? ==> Rooted(r.value) && r.value != "/" && Clean(r.value) == r.value
    ensures r.Ok? ==> '\\' !in r.value
  {
    var value := TrimSpace(BackslashToSlash(rawPath));
    if value == "" then Err(SSHFilePathRequired)
    else
      var rooted := if HasPrefix(value, "/") then value else "/" + value;
      var cleaned := Clean(rooted);
      CleanRooted(rooted);
      CleanIdempotent(rooted);
      SlashedHasNoBackslash(rawPath);
      CleanAvoids(rooted, '\\');
      if cleaned == "/" || cleaned == "." then Err(SSHFilePathRequired)
      else Ok(cleaned)
  }

  lemma SlashedHasNoBackslash(rawPath: string)
    ensures '\\' !in TrimSpace(BackslashToSlash(rawPath))
  {
    if '\\' in TrimSpace(BackslashToSlash(rawPath)) {
      TrimSpaceChars(BackslashToSlash(rawPath), '\\');
    }
  }

  /** A normalised remote path that does not end in a space is normalised
      to itself. */
  lemma NormalizeRemoteFilePathFixedPoint(rawPath: string)
    requires NormalizeRemoteFilePath(rawPath).Ok?
    requires IsTrimmed(NormalizeRemoteFilePath(rawPath).value)
    ensures NormalizeRemoteFilePath(NormalizeRemoteFilePath(rawPath).value) == NormalizeRemoteFilePath(rawPath)
  {
    var v := NormalizeRemoteFilePath(rawPath).value;
    assert BackslashToSlash(v) == v;
    TrimSpaceOfTrimmed(v);
  }

  /** isNotExistError: os.ErrNotExist, wrapped or not, or a message saying
      the file does not exist. */
  function IsNotExistError(err: Option<Error>): (r: bool)
    ensures err.None? ==> !r
    ensures err.Some? && Is(err.value, NotExist) ==> r
  {
    err.Some? && (Is(err.value, NotExist) || SaysNotExist(ErrorText(err.value)))
  }

  /** The message test of isNotExistError, on the trimmed lower-cased text. */
  predicate SaysNotExist(message: string)
  {
    var text := LowerTrim(message);
    Contains(text, "not exist") || Contains(text, "no such file")
  }

  /** Any text that says "not exist" or "no such file", in any case and
      wherever in the text, is recognised. */
  lemma NotExistMessage(message: string, marker: string)
    requires marker == "not exist" || marker == "no such file"
    requires Contains(ToLower(message), marker)
    ensures SaysNotExist(message)
  {
    ContainsLowerTrim(message, marker);
  }

  /** The test on a message does not depend on the message's case. */
  lemma NotExistIgnoresCase(message: string)
    ensures SaysNotExist(message) == SaysNotExist(ToLower(message))
  {
    LowerTrimOfLower(message);
  }

  /** The checks UploadFileByPathWithPort makes before it transfers: the
      server, the clean local path, the remote path and the bytes sent. */
  function UploadPlan(hasPaths: bool, factory: ClientFactory, local: map<string, LocalEntry>,
                      configs: map<string, ServerConfig>, defaultServer: ServerConfig,
                      localPath: string, remotePath: string, serverName: string, port: int)
    : (r: Result<(ServerConfig, string, string, seq<int>)>)
    ensures r.Ok? ==> r.value.1 in local && local[r.value.1] == File(r.value.3)
    ensures r.Ok? ==> ResolveServer(configs, defaultServer, serverName, port) == Ok(r.value.0)
    ensures r.Ok? ==> NormalizeRemoteFilePath(remotePath) == Ok(r.value.2)
  {
    if TrimSpace(localPath) == "" || TrimSpace(remotePath) == "" then Err(SSHFilePathRequired)
    else if !hasPaths then Err(ArtifactPathServiceNil)
    else if factory.NilFactory? then Err(SSHClientFactoryNil)
    else
      var normalizedLocal := Clean(TrimSpace(localPath));
      var normalizedRemote :- NormalizeRemoteFilePath(remotePath);
      if normalizedLocal !in local then Err(LocalSourceFileNotFound)
      else if local[normalizedLocal].Dir? then Err(LocalSourcePathNotRegularFile)
      else
        var server :- ResolveServer(configs, defaultServer, serverName, port);
        if factory.failure.Some? then Err(factory.failure.value)
        else Ok((server, normalizedLocal, normalizedRemote, local[normalizedLocal].content))
  }

  /** The local file is checked before the server is resolved: a missing or
      non-regular source fails even when no server could be resolved. */
  lemma UploadChecksSourceFirst(factory: ClientFactory, local: map<string, LocalEntry>,
                                configs: map<string, ServerConfig>, defaultServer: ServerConfig,
                                localPath: string, remotePath: string, serverName: string, port: int)
    requires factory.Factory? && !IsBlank(localPath) && !IsBlank(remotePath)
    requires NormalizeRemoteFilePath(remotePath).Ok?
    ensures Clean(TrimSpace(localPath)) !in local ==>
      UploadPlan(true, factory, local, configs, defaultServer, localPath, remotePath, serverName, port)
        == Err(LocalSourceFileNotFound)
    ensures Clean(TrimSpace(localPath)) in local && local[Clean(TrimSpace(localPath))].Dir? ==>
      UploadPlan(true, factory, local, configs, defaultServer, localPath, remotePath, serverName, port)
        == Err(LocalSourcePathNotRegularFile)
  {
  }

  /** The checks DownloadFileByPathWithPort makes before it opens a session:
      the server, the remote path and the clean local path. */
  function DownloadPlan(hasPaths: bool, factory: ClientFactory,
                        configs: map<string, ServerConfig>, defaultServer: ServerConfig,
                        remotePath: string, localPath: string, serverName: string, port: int)
    : (r: Result<(ServerConfig, string, string)>)
    ensures r.Ok? ==> ResolveServer(configs, defaultServer, serverName, port) == Ok(r.value.0)
    ensures r.Ok? ==> NormalizeRemoteFilePath(remotePath) == Ok(r.value.1)
    ensures r.Ok? ==> r.value.2 == Clean(TrimSpace(localPath))
  {
    if TrimSpace(localPath) == "" || TrimSpace(remotePath) == "" then Err(SSHFilePathRequired)
    else if !hasPaths then Err(ArtifactPathServiceNil)
    else if factory.NilFactory? then Err(SSHClientFactoryNil)
    else
      var normalizedRemote :- NormalizeRemoteFilePath(remotePath);
      var normalizedLocal := Clean(TrimSpace(localPath));
      var server :- ResolveServer(configs, defaultServer, serverName, port);
      if factory.failure.Some? then Err(factory.failure.value)
      else Ok((server, normalizedRemote, normalizedLocal))
  }

  /** The checks SearchRemoteFileInDefaultOtherRootsWithPort makes before it
      opens a session: the file name, its other_local path in both
      categories, and the server. */
  function SearchPlan(paths: Option<PathService>, factory: ClientFactory,
                      configs: map<string, ServerConfig>, defaultServer: ServerConfig,
                      fileName: string, serverName: string, port: int)
    : (r: Result<(string, string, string, ServerConfig)>)
    ensures r.Ok? ==> paths.Some? && NormalizeArtifactFileName(fileName) == Ok(r.value.0)
    ensures r.Ok? ==> BuildPath(paths.value, Weights, OtherLocal, r.value.0) == Ok(r.value.1)
    ensures r.Ok? ==> BuildPath(paths.value, Datasets, OtherLocal, r.value.0) == Ok(r.value.2)
    ensures r.Ok? ==> ResolveServer(configs, defaultServer, serverName, port) == Ok(r.value.3)
  {
    if paths.None? then Err(ArtifactPathServiceNil)
    else if factory.NilFactory? then Err(SSHClientFactoryNil)
    else
      var name :- NormalizeArtifactFileName(fileName);
      var weightsPath :- BuildPath(paths.value, Weights, OtherLocal, name);
      var datasetsPath :- BuildPath(paths.value, Datasets, OtherLocal, name);
      var server :- ResolveServer(configs, defaultServer, serverName, port);
      if factory.failure.Some? then Err(factory.failure.value)
      else Ok((name, weightsPath, datasetsPath, server))
  }

  /** What the search reports for a plan against the remote host. */
  function SearchOutcome(plan: (string, string, string, ServerConfig), remote: map<string, seq<int>>)
    : (r: SearchResult)
    ensures r.anyExists <==> plan.1 in remote || plan.2 in remote
    ensures r.matchedRemotePath != "" ==> r.matchedRemotePath == plan.1 || r.matchedRemotePath == plan.2
    ensures plan.1 != "" && plan.2 != "" ==>
      (r.matchedRemotePath != "" <==> r.existsInWeights != r.existsInDatasets)
  {
    var (name, weightsPath, datasetsPath, server) := plan;
    var inWeights := weightsPath in remote;
    var inDatasets := datasetsPath in remote;
    var matched := if inWeights && !inDatasets then weightsPath
                   else if inDatasets && !inWeights then datasetsPath
                   else "";
    SearchResult(server.name, server.ip, name, weightsPath, datasetsPath,
                 inWeights, inDatasets, inWeights || inDatasets, matched)
  }

  /** The existence flags and the two paths of a search are those of its
      plan. */
  lemma SearchOutcomeFields(plan: (string, string, string, ServerConfig), remote: map<string, seq<int>>)
    ensures var r := SearchOutcome(plan, remote);
      && r.weightsPath == plan.1 && r.datasetsPath == plan.2
      && (r.existsInWeights <==> plan.1 in remote) && (r.existsInDatasets <==> plan.2 in remote)
  {
  }

  /** localRegularFileExists: absent is false, a directory is an error. */
  function LocalRegular(local: map<string, LocalEntry>, filePath: string): (r: Result<bool>)
    ensures r == Ok(true) <==> Clean(filePath) in local && local[Clean(filePath)].File?
  {
    var p := Clean(filePath);
    if p !in local then Ok(false)
    else if local[p].Dir? then Err(LocalSourcePathNotRegularFile)
    else Ok(true)
  }

  /** resolveLocalBackendFile: which backend root holds the file, refusing
      a file held by both or by neither. */
  function LocalBackendFile(ps: PathService, local: map<string, LocalEntry>, fileName: string)
    : (r: Result<(string, string)>)
    ensures r.Ok? ==> r.value.0 in local && local[r.value.0].File?
    ensures r.Ok? ==> r.value.1 in {Weights, Datasets}
    ensures r.Ok? ==> BuildPath(ps, r.value.1, Backend, fileName).Ok?
                      && r.value.0 == Clean(BuildPath(ps, r.value.1, Backend, fileName).value)
  {
    var weightsPath :- BuildPath(ps, Weights, Backend, fileName);
    var datasetsPath :- BuildPath(ps, Datasets, Backend, fileName);
    PickBackend(local, weightsPath, datasetsPath)
  }

  /** The decision of resolveLocalBackendFile once both backend paths are
      built. */
  function PickBackend(local: map<string, LocalEntry>, weightsPath: string, datasetsPath: string)
    : (r: Result<(string, string)>)
    ensures r.Ok? ==> r.value.0 in local && local[r.value.0].File?
    ensures r.Ok? ==> (r.value.1 == Weights && r.value.0 == Clean(weightsPath))
                      || (r.value.1 == Datasets && r.value.0 == Clean(datasetsPath))
  {
    var weightsExists :- LocalRegular(local, weightsPath);
    var datasetsExists :- LocalRegular(local, datasetsPath);
    if weightsExists && datasetsExists then Err(ArtifactConflictInBackendRoots)
    else if weightsExists then Ok((Clean(weightsPath), Weights))
    else if datasetsExists then Ok((Clean(datasetsPath), Datasets))
    else Err(ArtifactNotFoundInBackendRoots)
  }

  /** Regular files under both paths conflict; nothing under either is not
      found. */
  lemma PickBackendDecisions(local: map<string, LocalEntry>, wp: string, dp: string)
    ensures Clean(wp) in local && local[Clean(wp)].File? && Clean(dp) in local && local[Clean(dp)].File? ==>
              PickBackend(local, wp, dp) == Err(ArtifactConflictInBackendRoots)
    ensures Clean(wp) !in local && Clean(dp) !in local ==>
              PickBackend(local, wp, dp) == Err(ArtifactNotFoundInBackendRoots)
  {
    var w, d := Clean(wp), Clean(dp);
    if w in local && local[w].File? && d in local && local[d].File? {
      assert LocalRegular(local, wp) == Ok(true) && LocalRegular(local, dp) == Ok(true);
    }
    if w !in local && d !in local {
      assert LocalRegular(local, wp) == Ok(false) && LocalRegular(local, dp) == Ok(false);
    }
  }

  /** A file held as a regular file by both backend roots is a conflict,
      and one held by neither is not found. */
  lemma LocalBackendDecisions(ps: PathService, local: map<string, LocalEntry>, fileName: string)
    requires BuildPath(ps, Weights, Backend, fileName).Ok? && BuildPath(ps, Datasets, Backend, fileName).Ok?
    ensures var w := Clean(BuildPath(ps, Weights, Backend, fileName).value);
      var d := Clean(BuildPath(ps, Datasets, Backend, fileName).value);
      && (w in local && local[w].File? && d in local && local[d].File? ==>
            LocalBackendFile(ps, local, fileName) == Err(ArtifactConflictInBackendRoots))
      && (w !in local && d !in local ==>
            LocalBackendFile(ps, local, fileName) == Err(ArtifactNotFoundInBackendRoots))
  {
    var wp := BuildPath(ps, Weights, Backend, fileName).value;
    var dp := BuildPath(ps, Datasets, Backend, fileName).value;
    PickBackendDecisions(local, wp, dp);
  }

  /** The four static servers NewSSHArtifactTransferService maps, all at the
      default address. */
  function StaticServerConfigs(keyPath: string): (r: map<string, ServerConfig>)
    ensures r.Keys == {"other", OtherLocal, Backend, BaiduNetdisk}
    ensures forall n :: n in r ==> r[n].name == n && r[n].ip == DefaultStaticServerIP
  {
    map n | n in {"other", OtherLocal, Backend, BaiduNetdisk} ::
      ServerConfig(n, DefaultStaticServerIP, DefaultSSHServerPort, DefaultSSHServerUser,
                   keyPath, DefaultSSHTimeout)
  }

  /** ~/.ssh/id_rsa below the given home directory ("" when it is unknown). */
  function DefaultKeyPath(homeDir: string): string
  {
    Join(homeDir, ".ssh/id_rsa")
  }

  class TransferService {
    const paths: Option<PathService>
    var serverConfigs: map<string, ServerConfig>
    const defaultServer: ServerConfig
    const factory: ClientFactory
    /** The local file system, by clean path. */
    var local: map<string, LocalEntry>
    /** The remote host's files, by remote path. */
    var remote: map<string, seq<int>>
    /** Every server a client was opened for, in order. */
    var sessions: seq<ServerConfig>

    constructor (paths: Option<PathService>, serverConfigs: map<string, ServerConfig>,
                 defaultServer: ServerConfig, factory: ClientFactory,
                 local: map<string, LocalEntry>, remote: map<string, seq<int>>)
      ensures this.paths == paths && this.serverConfigs == serverConfigs
      ensures this.defaultServer == defaultServer && this.factory == factory
      ensures this.local == local && this.remote == remote && sessions == []
    {
      this.paths := paths;
      this.serverConfigs := serverConfigs;
      this.defaultServer := defaultServer;
      this.factory := factory;
      this.local := local;
      this.remote := remote;
      sessions := [];
    }

    /** NewSSHArtifactTransferService: the default path service, the static
        servers and a default server named "default", all at the default
        address with the home directory's key. */
    constructor New(homeDir: string, local: map<string, LocalEntry>, remote: map<string, seq<int>>)
      ensures paths == Some(DefaultPathService())
      ensures serverConfigs == StaticServerConfigs(DefaultKeyPath(homeDir))
      ensures defaultServer == ServerConfig("default", DefaultStaticServerIP, DefaultSSHServerPort,
                                            DefaultSSHServerUser, DefaultKeyPath(homeDir), DefaultSSHTimeout)
      ensures factory == Factory(None)
      ensures this.local == local && this.remote == remote && sessions == []
    {
      var keyPath := DefaultKeyPath(homeDir);
      paths := Some(DefaultPathService());
      serverConfigs := StaticServerConfigs(keyPath);
      defaultServer := ServerConfig("default", DefaultStaticServerIP, DefaultSSHServerPort,
                                    DefaultSSHServerUser, keyPath, DefaultSSHTimeout);
      factory := Factory(None);
      this.local := local;
      this.remote := remote;
      sessions := [];
    }

    /** SetServerConfig: store the normalised configuration under the trimmed
        name; a blank name or an invalid configuration changes nothing. */
    method SetServerConfig(serverName: string, cfg: ServerConfig) returns (err: Option<Error>)
      modifies this
      ensures var name := TrimSpace(serverName);
        var n := NormalizeServerConfig(cfg);
        && (name == "" ==> err == Some(SSHServerNameRequired) && serverConfigs == old(serverConfigs))
        && (name != "" && n.Err? ==> err == Some(n.error) && serverConfigs == old(serverConfigs))
        && (name != "" && n.Ok? ==>
              err == None && serverConfigs == old(serverConfigs)[name := n.value.(name := name)])
      ensures local == old(local) && remote == old(remote) && sessions == old(sessions)
    {
      var name := TrimSpace(serverName);
      if name == "" {
        return Some(SSHServerNameRequired);
      }
      var normalized := NormalizeServerConfig(cfg);
      if normalized.Err? {
        return Some(normalized.error);
      }
      serverConfigs := serverConfigs[name := normalized.value.(name := name)];
      return None;
    }

    /** UploadFileByPathWithPort: validate, open one session, send the local
        file's bytes to the normalised remote path. */
    method UploadFileByPath(localPath: string, remotePath: string, serverName: string, port: int)
      returns (r: Result<TransferResult>)
      modifies this`sessions, this`remote
      ensures var plan := UploadPlan(paths.Some?, factory, local, serverConfigs, defaultServer,
                                     localPath, remotePath, serverName, port);
        && (plan.Err? ==> r == Err(plan.error) && remote == old(remote) && sessions == old(sessions))
        && (plan.Ok? ==>
              var (server, source, target, content) := plan.value;
              && r == Ok(TransferResult(server.name, server.ip, "upload", "", "", source, target, |content|))
              && remote == old(remote)[target := content]
              && sessions == old(sessions) + [server])
      ensures unchanged(this`local, this`serverConfigs)
    {
      var plan := UploadPlan(paths.Some?, factory, local, serverConfigs, defaultServer,
                             localPath, remotePath, serverName, port);
      if plan.Err? {
        return Err(plan.error);
      }
      var (server, normalizedLocal, normalizedRemote, content) := plan.value;
      sessions := sessions + [server];
      remote := remote[normalizedRemote := content];
      return Ok(TransferResult(server.name, server.ip, "upload", "", "", normalizedLocal,
                               normalizedRemote, |content|));
    }

    /** DownloadFileByPathWithPort: validate, open one session, and copy the
        remote file to the clean local path only when it exists. */
    method DownloadFileByPath(remotePath: string, localPath: string, serverName: string, port: int)
      returns (r: Result<TransferResult>)
      modifies this`sessions, this`local
      ensures var plan := DownloadPlan(paths.Some?, factory, serverConfigs, defaultServer,
                                       remotePath, localPath, serverName, port);
        && (plan.Err? ==> r == Err(plan.error) && local == old(local) && sessions == old(sessions))
        && (plan.Ok? ==>
              var (server, source, target) := plan.value;
              && sessions == old(sessions) + [server]
              && (source !in remote ==> r == Err(RemoteArtifactNotFound) && local == old(local))
              && (source in remote ==>
                    && r == Ok(TransferResult(server.name, server.ip, "download", "", "", source, target,
                                              |remote[source]|))
                    && local == old(local)[target := File(remote[source])]))
      ensures unchanged(this`remote, this`serverConfigs)
    {
      var plan := DownloadPlan(paths.Some?, factory, serverConfigs, defaultServer,
                               remotePath, localPath, serverName, port);
      if plan.Err? {
        return Err(plan.error);
      }
      var (server, normalizedRemote, normalizedLocal) := plan.value;
      sessions := sessions + [server];
      if normalizedRemote !in remote {
        return Err(RemoteArtifactNotFound);
      }
      var content := remote[normalizedRemote];
      local := local[normalizedLocal := File(content)];
      return Ok(TransferResult(server.name, server.ip, "download", "", "", normalizedRemote,
                               normalizedLocal, |content|));
    }

    /** SearchRemoteFileInDefaultOtherRootsWithPort: one session, two
        existence checks. */
    method SearchRemoteFile(fileName: string, serverName: string, port: int) returns (r: Result<SearchResult>)
      modifies this`sessions
      ensures var plan := SearchPlan(paths, factory, serverConfigs, defaultServer, fileName, serverName, port);
        && (plan.Err? ==> r == Err(plan.error) && sessions == old(sessions))
        && (plan.Ok? ==> r == Ok(SearchOutcome(plan.value, remote)) && sessions == old(sessions) + [plan.value.3])
      ensures unchanged(this`local, this`remote, this`serverConfigs)
    {
      var plan := SearchPlan(paths, factory, serverConfigs, defaultServer, fileName, serverName, port);
      if plan.Err? {
        return Err(plan.error);
      }
      sessions := sessions + [plan.value.3];
      var result := Probe(plan.value);
      return Ok(result);
    }

    /** The existence checks of SearchRemoteFile on one open session: both
        category paths are looked up on the remote host, and the matched
        path is set only when exactly one of them exists. */
    method Probe(plan: (string, string, string, ServerConfig)) returns (result: SearchResult)
      ensures result == SearchOutcome(plan, remote)
    {
      var (name, weightsPath, datasetsPath, server) := plan;
      var weightsExists := weightsPath in remote;
      var datasetsExists := datasetsPath in remote;
      result := SearchResult(server.name, server.ip, name, weightsPath, datasetsPath,
                             weightsExists, datasetsExists, weightsExists || datasetsExists, "");
      if weightsExists && !datasetsExists {
        result := result.(matchedRemotePath := weightsPath);
      }
      if datasetsExists && !weightsExists {
        result := result.(matchedRemotePath := datasetsPath);
      }
    }

    /** UploadArtifactByNameWithPort: find the file in exactly one backend
        root (before any session), refuse it when the remote already holds
        it in that category, else upload it to that category's other_local
        path. */
    method UploadArtifactByName(fileName: string, serverName: string, port: int) returns (r: Result<TransferResult>)
      modifies this`sessions, this`remote
      ensures paths.None? ==> r == Err(ArtifactPathServiceNil) && sessions == old(sessions)
      ensures paths.Some? && NormalizeArtifactFileName(fileName).Err? ==>
        r == Err(ArtifactFileNameEmpty) && sessions == old(sessions)
      ensures paths.Some? && NormalizeArtifactFileName(fileName).Ok? ==>
        var name := NormalizeArtifactFileName(fileName).value;
        var found := LocalBackendFile(paths.value, local, name);
        && (found.Err? ==> r == Err(found.error) && sessions == old(sessions) && remote == old(remote))
        && (found.Ok? ==>
              var plan := SearchPlan(paths, factory, serverConfigs, defaultServer, name, serverName, port);
              && (plan.Err? ==> r == Err(plan.error) && remote == old(remote))
              && (plan.Ok? && (if found.value.1 == Weights then plan.value.1 else plan.value.2) in old(remote) ==>
                    r == Err(RemoteArtifactAlreadyExists) && remote == old(remote)
                    && sessions == old(sessions) + [plan.value.3])
              && (r.Ok? ==>
                    && r.value.fileName == name && r.value.category == found.value.1
                    && r.value.direction == "upload"
                    && BuildPath(paths.value, found.value.1, OtherLocal, name).Ok?
                    && NormalizeRemoteFilePath(BuildPath(paths.value, found.value.1, OtherLocal, name).value)
                       == Ok(r.value.targetPath)
                    && r.value.sourcePath in local && local[r.value.sourcePath].File?
                    && remote == old(remote)[r.value.targetPath := local[r.value.sourcePath].content]
                    && |sessions| == |old(sessions)| + 2))
      ensures unchanged(this`local, this`serverConfigs)
    {
      if paths.None? {
        return Err(ArtifactPathServiceNil);
      }
      var ps := paths.value;
      var named := NormalizeArtifactFileName(fileName);
      if named.Err? {
        return Err(named.error);
      }
      var name := named.value;
      var found := LocalBackendFile(ps, local, name);
      if found.Err? {
        return Err(found.error);
      }
      var (localPath, category) := found.value;
      NormalizeFileNameIdempotent(fileName);
      var search := SearchRemoteFile(name, serverName, port);
      if search.Err? {
        return Err(search.error);
      }
      if category == Weights && search.value.existsInWeights {
        return Err(RemoteArtifactAlreadyExists);
      }
      if category == Datasets && search.value.existsInDatasets {
        return Err(RemoteArtifactAlreadyExists);
      }
      var remotePath := BuildPath(ps, category, OtherLocal, name).value;
      var result := UploadFileByPath(localPath, remotePath, serverName, port);
      if result.Err? {
        return Err(result.error);
      }
      return Ok(result.value.(fileName := name, category := category));
    }

    /** DownloadArtifactByNameWithPort: the file must be in exactly one remote
        other_local root; it is downloaded into the backend root of that
        category. */
    method DownloadArtifactByName(fileName: string, serverName: string, port: int) returns (r: Result<TransferResult>)
      modifies this`sessions, this`local
      ensures paths.None? ==> r == Err(ArtifactPathServiceNil) && sessions == old(sessions)
      ensures paths.Some? && NormalizeArtifactFileName(fileName).Err? ==>
        r == Err(ArtifactFileNameEmpty) && sessions == old(sessions)
      ensures paths.Some? && NormalizeArtifactFileName(fileName).Ok? ==>
        DownloadedByName(NormalizeArtifactFileName(fileName).value, serverName, port, r,
                         old(local), old(sessions))
      ensures unchanged(this`remote, this`serverConfigs)
    {
      if paths.None? {
        return Err(ArtifactPathServiceNil);
      }
      var ps := paths.value;
      var named := NormalizeArtifactFileName(fileName);
      if named.Err? {
        return Err(named.error);
      }
      r := DownloadNamed(ps, named.value, serverName, port);
    }

    /** What DownloadArtifactByNameWithPort promises for a normalised name,
        given the file system and the sessions before it. */
    ghost predicate DownloadedByName(name: string, serverName: string, port: int, r: Result<TransferResult>,
                                     local0: map<string, LocalEntry>, sessions0: seq<ServerConfig>)
      reads this
      requires paths.Some?
    {
      var plan := SearchPlan(paths, factory, serverConfigs, defaultServer, name, serverName, port);
      && (plan.Err? ==> r == Err(plan.error) && local == local0 && sessions == sessions0)
      && (plan.Ok? && plan.value.1 !in remote && plan.value.2 !in remote ==>
            r == Err(ArtifactNotFoundInRemoteOtherRoot) && local == local0
            && sessions == sessions0 + [plan.value.3])
      && (plan.Ok? && plan.value.1 in remote && plan.value.2 in remote ==>
            r == Err(ArtifactConflictInRemoteRoots) && local == local0
            && sessions == sessions0 + [plan.value.3])
      && (r.Ok? ==>
            var category := if plan.value.2 in remote then Datasets else Weights;
            && plan.Ok? && (plan.value.1 in remote) != (plan.value.2 in remote)
            && r.value.fileName == name && r.value.category == category
            && r.value.direction == "download"
            && NormalizeRemoteFilePath(if category == Datasets then plan.value.2 else plan.value.1)
               == Ok(r.value.sourcePath)
            && r.value.sourcePath in remote
            && BuildPath(paths.value, category, Backend, name).Ok?
            && r.value.targetPath == Clean(TrimSpace(BuildPath(paths.value, category, Backend, name).value))
            && local == local0[r.value.targetPath := File(remote[r.value.sourcePath])]
            && |sessions| == |sessions0| + 2)
    }

    /** DownloadArtifactByNameWithPort once the name is normalised: search
        the remote other_local roots, then download what was found in
        exactly one of them. */
    method DownloadNamed(ps: PathService, name: string, serverName: string, port: int) returns (r: Result<TransferResult>)
      requires paths == Some(ps)
      modifies this`sessions, this`local
      ensures DownloadedByName(name, serverName, port, r, old(local), old(sessions))
      ensures unchanged(this`remote, this`serverConfigs)
    {
      ghost var plan := SearchPlan(paths, factory, serverConfigs, defaultServer, name, serverName, port);
      var search := SearchRemoteFile(name, serverName, port);
      if search.Err? {
        return Err(search.error);
      }
      SearchOutcomeFields(plan.value, remote);
      if !search.value.anyExists {
        return Err(ArtifactNotFoundInRemoteOtherRoot);
      }
      if search.value.existsInWeights && search.value.existsInDatasets {
        return Err(ArtifactConflictInRemoteRoots);
      }
      r := DownloadFound(ps, name, search.value, serverName, port);
    }

    /** The second half of DownloadArtifactByNameWithPort: the file found in
        exactly one remote root is downloaded into the backend root of that
        category. */
    method DownloadFound(ps: PathService, name: string, found: SearchResult, serverName: string, port: int)
      returns (r: Result<TransferResult>)
      requires paths == Some(ps)
      requires found.existsInWeights != found.existsInDatasets
      modifies this`sessions, this`local
      ensures unchanged(this`remote, this`serverConfigs)
      ensures r.Ok? ==>
        var category := if found.existsInDatasets then Datasets else Weights;
        && r.value.fileName == name && r.value.category == category
        && r.value.direction == "download"
        && NormalizeRemoteFilePath(if category == Datasets then found.datasetsPath else found.weightsPath)
           == Ok(r.value.sourcePath)
        && r.value.sourcePath in remote
        && BuildPath(ps, category, Backend, name).Ok?
        && r.value.targetPath == Clean(TrimSpace(BuildPath(ps, category, Backend, name).value))
        && local == old(local)[r.value.targetPath := File(remote[r.value.sourcePath])]
        && |sessions| == |old(sessions)| + 1
    {
      var category := Weights;
      var remotePath := found.weightsPath;
      if found.existsInDatasets {
        category := Datasets;
        remotePath := found.datasetsPath;
      }
      var localPath := BuildPath(ps, category, Backend, name);
      if localPath.Err? {
        return Err(localPath.error);
      }
      var result := DownloadFileByPath(remotePath, localPath.value, serverName, port);
      if result.Err? {
        return Err(result.error);
      }
      return Ok(result.value.(fileName := name, category := category));
    }
  }
}
