// ResultCode: the response status codes and the getByCode lookup.
module ResultCodes {
  import opened Wrappers

  /** The enum constants, in declaration order. */
  datatype ResultCode =
    Success
    | BadRequest
    | Unauthorized
    | Forbidden
    | NotFound
    | MethodNotAllowed
    | RequestTimeout
    | Conflict
    | UnsupportedMediaType
    | TooManyRequests
    | Failure
    | ServiceUnavailable
    | BusinessError
    | ValidationError
    | DataNotFound
    | DataExists
    | DataError
    | OperationError
    | LoginRequired
    | LoginError
    | AccountDisabled
    | AccountLocked
    | PasswordExpired
    | TokenExpired
    | TokenInvalid
    | PermissionDenied
    | FileNotFound
    | FileUploadError
    | FileDeleteError
    | FileSizeLimit
    | FileTypeError
    | ExternalServiceError
    | NetworkError
    | TimeoutError
    | DatabaseError
    | DataIntegrityError
    | DuplicateKeyError
    | CacheError
    | CacheKeyNotFound
    | MqError
    | MessageSendError
    | MessageConsumeError

  /** The status code of a constant. */
  function Code(rc: ResultCode): int
  {
    match rc
    case Success => 200
    case BadRequest => 400
    case Unauthorized => 401
    case Forbidden => 403
    case NotFound => 404
    case MethodNotAllowed => 405
    case RequestTimeout => 408
    case Conflict => 409
    case UnsupportedMediaType => 415
    case TooManyRequests => 429
    case Failure => 500
    case ServiceUnavailable => 503
    case BusinessError => 1000
    case ValidationError => 1001
    case DataNotFound => 1002
    case DataExists => 1003
    case DataError => 1004
    case OperationError => 1005
    case LoginRequired => 2000
    case LoginError => 2001
    case AccountDisabled => 2002
    case AccountLocked => 2003
    case PasswordExpired => 2004
    case TokenExpired => 2005
    case TokenInvalid => 2006
    case PermissionDenied => 2007
    case FileNotFound => 3000
    case FileUploadError => 3001
    case FileDeleteError => 3002
    case FileSizeLimit => 3003
    case FileTypeError => 3004
    case ExternalServiceError => 4000
    case NetworkError => 4001
    case TimeoutError => 4002
    case DatabaseError => 5000
    case DataIntegrityError => 5001
    case DuplicateKeyError => 5002
    case CacheError => 6000
    case CacheKeyNotFound => 6001
    case MqError => 7000
    case MessageSendError => 7001
    case MessageConsumeError => 7002
  }

  /** The response message of a constant. */
  function Message(rc: ResultCode): string
  {
    match rc
    case Success => "操作成功"
    case BadRequest => "请求参数错误"
    case Unauthorized => "未授权"
    case Forbidden => "禁止访问"
    case NotFound => "资源不存在"
    case MethodNotAllowed => "请求方法不允许"
    case RequestTimeout => "请求超时"
    case Conflict => "资源冲突"
    case UnsupportedMediaType => "不支持的媒体类型"
    case TooManyRequests => "请求过于频繁"
    case Failure => "系统异常"
    case ServiceUnavailable => "服务不可用"
    case BusinessError => "业务异常"
    case ValidationError => "参数校验失败"
    case DataNotFound => "数据不存在"
    case DataExists => "数据已存在"
    case DataError => "数据异常"
    case OperationError => "操作失败"
    case LoginRequired => "请先登录"
    case LoginError => "用户名或密码错误"
    case AccountDisabled => "账户已被禁用"
    case AccountLocked => "账户已被锁定"
    case PasswordExpired => "密码已过期"
    case TokenExpired => "令牌已过期"
    case TokenInvalid => "令牌无效"
    case PermissionDenied => "权限不足"
    case FileNotFound => "文件不存在"
    case FileUploadError => "文件上传失败"
    case FileDeleteError => "文件删除失败"
    case FileSizeLimit => "文件大小超出限制"
    case FileTypeError => "文件类型不支持"
    case ExternalServiceError => "外部服务异常"
    case NetworkError => "网络连接异常"
    case TimeoutError => "请求超时"
    case DatabaseError => "数据库异常"
    case DataIntegrityError => "数据完整性异常"
    case DuplicateKeyError => "数据重复"
    case CacheError => "缓存异常"
    case CacheKeyNotFound => "缓存键不存在"
    case MqError => "消息队列异常"
    case MessageSendError => "消息发送失败"
    case MessageConsumeError => "消息消费失败"
  }

  /** values(): every constant in declaration order. */
  const Values: seq<ResultCode> := [
    Success, BadRequest, Unauthorized, Forbidden, NotFound, MethodNotAllowed, RequestTimeout,
    Conflict, UnsupportedMediaType, TooManyRequests, Failure, ServiceUnavailable, BusinessError,
    ValidationError, DataNotFound, DataExists, DataError, OperationError, LoginRequired,
    LoginError, AccountDisabled, AccountLocked, PasswordExpired, TokenExpired, TokenInvalid,
    PermissionDenied, FileNotFound, FileUploadError, FileDeleteError, FileSizeLimit, FileTypeError,
    ExternalServiceError, NetworkError, TimeoutError, DatabaseError, DataIntegrityError,
    DuplicateKeyError, CacheError, CacheKeyNotFound, MqError, MessageSendError, MessageConsumeError]

  /** The reference inverse of Code: the constant declared with a code, if any. */
  function Declared(code: int): Option<ResultCode>
  {
    match code
    case 200 => Some(Success)
    case 400 => Some(BadRequest)
    case 401 => Some(Unauthorized)
    case 403 => Some(Forbidden)
    case 404 => Some(NotFound)
    case 405 => Some(MethodNotAllowed)
    case 408 => Some(RequestTimeout)
    case 409 => Some(Conflict)
    case 415 => Some(UnsupportedMediaType)
    case 429 => Some(TooManyRequests)
    case 500 => Some(Failure)
    case 503 => Some(ServiceUnavailable)
    case 1000 => Some(BusinessError)
    case 1001 => Some(ValidationError)
    case 1002 => Some(DataNotFound)
    case 1003 => Some(DataExists)
    case 1004 => Some(DataError)
    case 1005 => Some(OperationError)
    case 2000 => Some(LoginRequired)
    case 2001 => Some(LoginError)
    case 2002 => Some(AccountDisabled)
    case 2003 => Some(AccountLocked)
    case 2004 => Some(PasswordExpired)
    case 2005 => Some(TokenExpired)
    case 2006 => Some(TokenInvalid)
    case 2007 => Some(PermissionDenied)
    case 3000 => Some(FileNotFound)
    case 3001 => Some(FileUploadError)
    case 3002 => Some(FileDeleteError)
    case 3003 => Some(FileSizeLimit)
    case 3004 => Some(FileTypeError)
    case 4000 => Some(ExternalServiceError)
    case 4001 => Some(NetworkError)
    case 4002 => Some(TimeoutError)
    case 5000 => Some(DatabaseError)
    case 5001 => Some(DataIntegrityError)
    case 5002 => Some(DuplicateKeyError)
    case 6000 => Some(CacheError)
    case 6001 => Some(CacheKeyNotFound)
    case 7000 => Some(MqError)
    case 7001 => Some(MessageSendError)
    case 7002 => Some(MessageConsumeError)
    case _ => None
  }
  /** Declared inverts Code: no two constants share a code. */
  lemma DeclaredInvertsCode(rc: ResultCode)
    ensures Declared(Code(rc)) == Some(rc)
  {
    match rc
    case _ =>
  }

  /** Declared names a constant only for that constant's own code. */
  lemma DeclaredSound(code: int)
    ensures Declared(code).Some? ==> Code(Declared(code).value) == code
  {
  }

  lemma {:induction false} CodeInjective(a: ResultCode, b: ResultCode)
    ensures Code(a) == Code(b) ==> a == b
  {
    DeclaredInvertsCode(a);
    DeclaredInvertsCode(b);
  }

  lemma ListedInValues(rc: ResultCode)
    ensures rc in Values
  {
    match rc
    case _ =>
  }

  /** Position i holds the first constant of vs whose code equals code. */
  predicate FirstMatch(vs: seq<ResultCode>, i: int, code: int)
  {
    0 <= i < |vs| && Code(vs[i]) == code && forall j :: 0 <= j < i ==> Code(vs[j]) != code
  }

  /** The loop of getByCode: the first constant of vs, in order, whose code equals code. */
  function Find(vs: seq<ResultCode>, code: int): (r: Option<ResultCode>)
    ensures r.Some? ==> exists i :: FirstMatch(vs, i, code) && vs[i] == r.value
    ensures r.None? <==> forall v :: v in vs ==> Code(v) != code
  {
    if vs == [] then None
    else if Code(vs[0]) == code then
      assert FirstMatch(vs, 0, code);
      Some(vs[0])
    else
      var rest := Find(vs[1..], code);
      assert forall v :: v in vs ==> v == vs[0] || v in vs[1..];
      if rest.Some? then
        var i :| FirstMatch(vs[1..], i, code) && vs[1..][i] == rest.value;
        assert FirstMatch(vs, i + 1, code) by {
          forall j | 0 <= j < i + 1
            ensures Code(vs[j]) != code
          {
            if j > 0 {
              assert vs[j] == vs[1..][j - 1];
            }
          }
        }
        rest
      else
        rest
  }

  /** getByCode: the constant with that code, FAILURE for an undeclared or null code. */
  function GetByCode(code: Option<int>): ResultCode
  {
    if code.None? then Failure
    else Find(Values, code.value).GetOr(Failure)
  }

  /** Every constant is found again from its own code. */
  lemma GetByCodeRoundTrip(rc: ResultCode)
    ensures GetByCode(Some(Code(rc))) == rc
  {
    ListedInValues(rc);
    var found := Find(Values, Code(rc));
    assert found.Some?;
    CodeInjective(found.value, rc);
  }

  /** An undeclared or null code gives FAILURE. */
  lemma GetByCodeFallback(code: Option<int>)
    ensures code.None? ==> GetByCode(code) == Failure && Code(GetByCode(code)) == 500
    ensures code.Some? && Declared(code.value).None? ==> GetByCode(code) == Failure
  {
    if code.Some? && Declared(code.value).None? {
      var found := Find(Values, code.value);
      if found.Some? {
        DeclaredInvertsCode(found.value);
        assert false;
      }
    }
  }

  /** The lookup gives back the code it was asked for exactly when that code is declared. */
  lemma GetByCodeKeepsCode(code: int)
    ensures Code(GetByCode(Some(code))) == code <==> Declared(code).Some?
  {
    if Declared(code).Some? {
      DeclaredSound(code);
      GetByCodeRoundTrip(Declared(code).value);
    } else {
      GetByCodeFallback(Some(code));
      DeclaredInvertsCode(Failure);
    }
  }
}
