/** Option and Result types, and the sentinel errors of the storage-routing layer. */
module Wrappers {

  datatype Option<T> = None | Some(value: T)

  /** The sentinel errors the Go packages declare with errors.New, plus the
      three shapes of error that come from outside the core. */
  datatype Error =
    // dao/common.go, and gorm.ErrRecordNotFound
    | DBNotInitialized | InvalidID | NilEntity | AlreadyExists | InvalidAction
    | RecordNotFound
    // internal/dao/common.go declares its own three
    | InternalDBNotInitialized | InternalInvalidID | InternalNilEntity
    // os.ErrNotExist
    | NotExist
    // service/artifact_path_service.go
    | InvalidArtifactCategory | InvalidStorageTarget | ArtifactFileNameEmpty
    // service/upload_service.go
    | InvalidUploadFile | BaiduUploaderNil | ArtifactPathServiceNil
    // service/ssh_artifact_transfer_service.go
    | SSHClientFactoryNil | SSHServerNameRequired | SSHServerIPRequired
    | SSHServerPortInvalid | SSHUserRequired | SSHPrivateKeyPathRequired
    | SSHFilePathRequired | LocalSourceFileNotFound | LocalSourcePathNotRegularFile
    | RemoteArtifactNotFound | RemoteArtifactAlreadyExists
    | ArtifactNotFoundInBackendRoots | ArtifactNotFoundInRemoteOtherRoot
    | ArtifactConflictInBackendRoots | ArtifactConflictInRemoteRoots
    // service/baidupan_*_service.go
    | BaiduPanAccessTokenRequired | InvalidBaiduRemoteDir | BaiduDownloaderNil
    | InvalidDownloadCategory | InvalidBaiduDownloadPath | InvalidBaiduDownloadFile
    | InvalidLocalDownloadFile | BaiduDownloadTargetRequired
    // service/core_server_redis_service.go
    | RedisNotInitialized | CoreServerKeyRequired | CoreServerNotFound
    // an error raised by code outside the model (I/O, SDK, driver), by its text
    | Foreign(text: string)
    // fmt.Errorf with a %w verb: the inner error between two texts;
    // errors.Is sees through it
    | Wrapped(prefix: string, inner: Error, suffix: string)
    // a validation message built by a handler helper
    | Message(text: string)

  /** errors.Is for the sentinel errors: an error is its sentinel, or wraps it. */
  predicate Is(e: Error, target: Error)
  {
    e == target || (e.Wrapped? && Is(e.inner, target))
  }

  /** err.Error(): the text each error prints. */
  function ErrorText(e: Error): string
  {
    match e
    case DBNotInitialized => "gorm db \U{6CA1}\U{6709}\U{521D}\U{59CB}\U{5316}"
    case InvalidID => "\U{4F20}\U{5165}\U{7684} ID \U{4E0D}\U{5408}\U{6CD5}"
    case NilEntity => "\U{5B9E}\U{4F53}\U{5BF9}\U{8C61} \U{4E3A} nil"
    case AlreadyExists => "\U{8BB0}\U{5F55}\U{5DF2}\U{7ECF}\U{5B58}\U{50A8}\U{5728}"
    case InvalidAction => "invalid action, must be one of: set/add/remove"
    case RecordNotFound => "record not found"
    case InternalDBNotInitialized => "gorm db is not initialized"
    case InternalInvalidID => "invalid id"
    case InternalNilEntity => "entity is nil"
    case NotExist => "file does not exist"
    case InvalidArtifactCategory => "invalid artifact category"
    case InvalidStorageTarget => "invalid storage target"
    case ArtifactFileNameEmpty => "artifact file_name is required"
    case InvalidUploadFile => "invalid upload file"
    case BaiduUploaderNil => "baidu uploader is nil"
    case ArtifactPathServiceNil => "artifact path service is nil"
    case SSHClientFactoryNil => "ssh client factory is nil"
    case SSHServerNameRequired => "server name is required"
    case SSHServerIPRequired => "server ip is required"
    case SSHServerPortInvalid => "ssh server port is invalid"
    case SSHUserRequired => "ssh server user is required"
    case SSHPrivateKeyPathRequired => "ssh private key path is required"
    case SSHFilePathRequired => "file path is required"
    case LocalSourceFileNotFound => "local source file not found"
    case LocalSourcePathNotRegularFile => "local source path is not a regular file"
    case RemoteArtifactNotFound => "remote artifact not found"
    case RemoteArtifactAlreadyExists => "remote artifact already exists"
    case ArtifactNotFoundInBackendRoots => "artifact not found in backend roots"
    case ArtifactNotFoundInRemoteOtherRoot => "artifact not found in remote other roots"
    case ArtifactConflictInBackendRoots => "artifact exists in both backend roots"
    case ArtifactConflictInRemoteRoots => "artifact exists in both remote roots"
    case BaiduPanAccessTokenRequired => "baidu pan access_token is required"
    case InvalidBaiduRemoteDir => "invalid baidu remote dir"
    case BaiduDownloaderNil => "baidu downloader is nil"
    case InvalidDownloadCategory => "invalid download category"
    case InvalidBaiduDownloadPath => "invalid baidu remote path"
    case InvalidBaiduDownloadFile => "invalid baidu remote file name"
    case InvalidLocalDownloadFile => "invalid local download file"
    case BaiduDownloadTargetRequired => "download target is required"
    case RedisNotInitialized => "redis client is not initialized"
    case CoreServerKeyRequired => "core server key is required"
    case CoreServerNotFound => "core server not found"
    case Foreign(text) => text
    case Wrapped(prefix, inner, suffix) => prefix + ErrorText(inner) + suffix
    case Message(text) => text
  }

  datatype Result<T> = Ok(value: T) | Err(error: Error)
  {
    predicate IsFailure() { Err? }
    function PropagateFailure<U>(): Result<U> requires Err? { Err(error) }
    function Extract(): T requires Ok? { value }
  }
}
