/**
 * The frontend's table of Vercel error codes: the application and the
 * platform tables, their merge, the membership tests, the user-facing
 * message for a code, and the record the error handler reports.
 *
 * The declared codes are the constructors of `Code`; a code string is
 * declared exactly when `ParseCode` recognises it, so each table is a
 * finite map over the declared codes. The console logging of the handler
 * is not part of this model.
 */
module VercelErrors {
  import opened Common

  /** Every code either table declares, once each. */
  datatype Code =
    | BodyNotAStringFromFunction
    | DeploymentBlocked
    | DeploymentDeleted
    | DeploymentDisabled
    | DeploymentNotFound
    | DeploymentNotReadyRedirecting
    | DeploymentPaused
    | DnsHostnameEmpty
    | DnsHostnameNotFound
    | DnsHostnameResolveFailed
    | DnsHostnameResolvedPrivate
    | DnsHostnameServerError
    | EdgeFunctionInvocationFailed
    | EdgeFunctionInvocationTimeout
    | FallbackBodyTooLarge
    | FunctionInvocationFailed
    | FunctionInvocationTimeout
    | FunctionPayloadTooLarge
    | FunctionResponsePayloadTooLarge
    | FunctionThrottled
    | InfiniteLoopDetected
    | InvalidImageOptimizeRequest
    | InvalidRequestMethod
    | MalformedRequestHeader
    | MicrofrontendsMiddlewareError
    | MiddlewareInvocationFailed
    | MiddlewareInvocationTimeout
    | MiddlewareRuntimeDeprecated
    | NoResponseFromFunction
    | NotFound
    | OptimizedExternalImageRequestFailed
    | OptimizedExternalImageRequestInvalid
    | OptimizedExternalImageRequestUnauthorized
    | OptimizedExternalImageTooManyRedirects
    | RangeEndNotValid
    | RangeGroupNotValid
    | RangeMissingUnit
    | RangeStartNotValid
    | RangeUnitNotSupported
    | RequestHeaderTooLarge
    | ResourceNotFound
    | RouterCannotMatch
    | RouterExternalTargetConnectionError
    | RouterExternalTargetError
    | RouterExternalTargetHandshakeError
    | RouterTooManyHasSelections
    | TooManyFilesystemChecks
    | TooManyForks
    | TooManyRanges
    | UrlTooLong
    | InternalCacheError
    | InternalCacheKeyTooLong
    | InternalCacheLockFull
    | InternalCacheLockTimeout
    | InternalDeploymentFetchFailed
    | InternalEdgeFunctionInvocationFailed
    | InternalEdgeFunctionInvocationTimeout
    | InternalFunctionInvocationFailed
    | InternalFunctionInvocationTimeout
    | InternalFunctionNotFound
    | InternalFunctionNotReady
    | InternalFunctionServiceUnavailable
    | InternalMicrofrontendsBuildError
    | InternalMicrofrontendsInvalidConfigurationError
    | InternalMicrofrontendsUnexpectedError
    | InternalMissingResponseFromCache
    | InternalOptimizedImageRequestFailed
    | InternalRouterCannotParsePath
    | InternalStaticRequestFailed
    | InternalUnarchiveFailed
    | InternalUnexpectedError

  /** The code's own spelling. */
  function CodeName(c: Code): string {
    match c
    case BodyNotAStringFromFunction => "BODY_NOT_A_STRING_FROM_FUNCTION"
    case DeploymentBlocked => "DEPLOYMENT_BLOCKED"
    case DeploymentDeleted => "DEPLOYMENT_DELETED"
    case DeploymentDisabled => "DEPLOYMENT_DISABLED"
    case DeploymentNotFound => "DEPLOYMENT_NOT_FOUND"
    case DeploymentNotReadyRedirecting => "DEPLOYMENT_NOT_READY_REDIRECTING"
    case DeploymentPaused => "DEPLOYMENT_PAUSED"
    case DnsHostnameEmpty => "DNS_HOSTNAME_EMPTY"
    case DnsHostnameNotFound => "DNS_HOSTNAME_NOT_FOUND"
    case DnsHostnameResolveFailed => "DNS_HOSTNAME_RESOLVE_FAILED"
    case DnsHostnameResolvedPrivate => "DNS_HOSTNAME_RESOLVED_PRIVATE"
    case DnsHostnameServerError => "DNS_HOSTNAME_SERVER_ERROR"
    case EdgeFunctionInvocationFailed => "EDGE_FUNCTION_INVOCATION_FAILED"
    case EdgeFunctionInvocationTimeout => "EDGE_FUNCTION_INVOCATION_TIMEOUT"
    case FallbackBodyTooLarge => "FALLBACK_BODY_TOO_LARGE"
    case FunctionInvocationFailed => "FUNCTION_INVOCATION_FAILED"
    case FunctionInvocationTimeout => "FUNCTION_INVOCATION_TIMEOUT"
    case FunctionPayloadTooLarge => "FUNCTION_PAYLOAD_TOO_LARGE"
    case FunctionResponsePayloadTooLarge => "FUNCTION_RESPONSE_PAYLOAD_TOO_LARGE"
    case FunctionThrottled => "FUNCTION_THROTTLED"
    case InfiniteLoopDetected => "INFINITE_LOOP_DETECTED"
    case InvalidImageOptimizeRequest => "INVALID_IMAGE_OPTIMIZE_REQUEST"
    case InvalidRequestMethod => "INVALID_REQUEST_METHOD"
    case MalformedRequestHeader => "MALFORMED_REQUEST_HEADER"
    case MicrofrontendsMiddlewareError => "MICROFRONTENDS_MIDDLEWARE_ERROR"
    case MiddlewareInvocationFailed => "MIDDLEWARE_INVOCATION_FAILED"
    case MiddlewareInvocationTimeout => "MIDDLEWARE_INVOCATION_TIMEOUT"
    case MiddlewareRuntimeDeprecated => "MIDDLEWARE_RUNTIME_DEPRECATED"
    case NoResponseFromFunction => "NO_RESPONSE_FROM_FUNCTION"
    case NotFound => "NOT_FOUND"
    case OptimizedExternalImageRequestFailed => "OPTIMIZED_EXTERNAL_IMAGE_REQUEST_FAILED"
    case OptimizedExternalImageRequestInvalid => "OPTIMIZED_EXTERNAL_IMAGE_REQUEST_INVALID"
    case OptimizedExternalImageRequestUnauthorized => "OPTIMIZED_EXTERNAL_IMAGE_REQUEST_UNAUTHORIZED"
    case OptimizedExternalImageTooManyRedirects => "OPTIMIZED_EXTERNAL_IMAGE_TOO_MANY_REDIRECTS"
    case RangeEndNotValid => "RANGE_END_NOT_VALID"
    case RangeGroupNotValid => "RANGE_GROUP_NOT_VALID"
    case RangeMissingUnit => "RANGE_MISSING_UNIT"
    case RangeStartNotValid => "RANGE_START_NOT_VALID"
    case RangeUnitNotSupported => "RANGE_UNIT_NOT_SUPPORTED"
    case RequestHeaderTooLarge => "REQUEST_HEADER_TOO_LARGE"
    case ResourceNotFound => "RESOURCE_NOT_FOUND"
    case RouterCannotMatch => "ROUTER_CANNOT_MATCH"
    case RouterExternalTargetConnectionError => "ROUTER_EXTERNAL_TARGET_CONNECTION_ERROR"
    case RouterExternalTargetError => "ROUTER_EXTERNAL_TARGET_ERROR"
    case RouterExternalTargetHandshakeError => "ROUTER_EXTERNAL_TARGET_HANDSHAKE_ERROR"
    case RouterTooManyHasSelections => "ROUTER_TOO_MANY_HAS_SELECTIONS"
    case TooManyFilesystemChecks => "TOO_MANY_FILESYSTEM_CHECKS"
    case TooManyForks => "TOO_MANY_FORKS"
    case TooManyRanges => "TOO_MANY_RANGES"
    case UrlTooLong => "URL_TOO_LONG"
    case InternalCacheError => "INTERNAL_CACHE_ERROR"
    case InternalCacheKeyTooLong => "INTERNAL_CACHE_KEY_TOO_LONG"
    case InternalCacheLockFull => "INTERNAL_CACHE_LOCK_FULL"
    case InternalCacheLockTimeout => "INTERNAL_CACHE_LOCK_TIMEOUT"
    case InternalDeploymentFetchFailed => "INTERNAL_DEPLOYMENT_FETCH_FAILED"
    case InternalEdgeFunctionInvocationFailed => "INTERNAL_EDGE_FUNCTION_INVOCATION_FAILED"
    case InternalEdgeFunctionInvocationTimeout => "INTERNAL_EDGE_FUNCTION_INVOCATION_TIMEOUT"
    case InternalFunctionInvocationFailed => "INTERNAL_FUNCTION_INVOCATION_FAILED"
    case InternalFunctionInvocationTimeout => "INTERNAL_FUNCTION_INVOCATION_TIMEOUT"
    case InternalFunctionNotFound => "INTERNAL_FUNCTION_NOT_FOUND"
    case InternalFunctionNotReady => "INTERNAL_FUNCTION_NOT_READY"
    case InternalFunctionServiceUnavailable => "INTERNAL_FUNCTION_SERVICE_UNAVAILABLE"
    case InternalMicrofrontendsBuildError => "INTERNAL_MICROFRONTENDS_BUILD_ERROR"
    case InternalMicrofrontendsInvalidConfigurationError => "INTERNAL_MICROFRONTENDS_INVALID_CONFIGURATION_ERROR"
    case InternalMicrofrontendsUnexpectedError => "INTERNAL_MICROFRONTENDS_UNEXPECTED_ERROR"
    case InternalMissingResponseFromCache => "INTERNAL_MISSING_RESPONSE_FROM_CACHE"
    case InternalOptimizedImageRequestFailed => "INTERNAL_OPTIMIZED_IMAGE_REQUEST_FAILED"
    case InternalRouterCannotParsePath => "INTERNAL_ROUTER_CANNOT_PARSE_PATH"
    case InternalStaticRequestFailed => "INTERNAL_STATIC_REQUEST_FAILED"
    case InternalUnarchiveFailed => "INTERNAL_UNARCHIVE_FAILED"
    case InternalUnexpectedError => "INTERNAL_UNEXPECTED_ERROR"
  }

  /** The declared code a string spells, if any. */
  function ParseCode(s: string): Option<Code> {
    match s
    case "BODY_NOT_A_STRING_FROM_FUNCTION" => Some(BodyNotAStringFromFunction)
    case "DEPLOYMENT_BLOCKED" => Some(DeploymentBlocked)
    case "DEPLOYMENT_DELETED" => Some(DeploymentDeleted)
    case "DEPLOYMENT_DISABLED" => Some(DeploymentDisabled)
    case "DEPLOYMENT_NOT_FOUND" => Some(DeploymentNotFound)
    case "DEPLOYMENT_NOT_READY_REDIRECTING" => Some(DeploymentNotReadyRedirecting)
    case "DEPLOYMENT_PAUSED" => Some(DeploymentPaused)
    case "DNS_HOSTNAME_EMPTY" => Some(DnsHostnameEmpty)
    case "DNS_HOSTNAME_NOT_FOUND" => Some(DnsHostnameNotFound)
    case "DNS_HOSTNAME_RESOLVE_FAILED" => Some(DnsHostnameResolveFailed)
    case "DNS_HOSTNAME_RESOLVED_PRIVATE" => Some(DnsHostnameResolvedPrivate)
    case "DNS_HOSTNAME_SERVER_ERROR" => Some(DnsHostnameServerError)
    case "EDGE_FUNCTION_INVOCATION_FAILED" => Some(EdgeFunctionInvocationFailed)
    case "EDGE_FUNCTION_INVOCATION_TIMEOUT" => Some(EdgeFunctionInvocationTimeout)
    case "FALLBACK_BODY_TOO_LARGE" => Some(FallbackBodyTooLarge)
    case "FUNCTION_INVOCATION_FAILED" => Some(FunctionInvocationFailed)
    case "FUNCTION_INVOCATION_TIMEOUT" => Some(FunctionInvocationTimeout)
    case "FUNCTION_PAYLOAD_TOO_LARGE" => Some(FunctionPayloadTooLarge)
    case "FUNCTION_RESPONSE_PAYLOAD_TOO_LARGE" => Some(FunctionResponsePayloadTooLarge)
    case "FUNCTION_THROTTLED" => Some(FunctionThrottled)
    case "INFINITE_LOOP_DETECTED" => Some(InfiniteLoopDetected)
    case "INVALID_IMAGE_OPTIMIZE_REQUEST" => Some(InvalidImageOptimizeRequest)
    case "INVALID_REQUEST_METHOD" => Some(InvalidRequestMethod)
    case "MALFORMED_REQUEST_HEADER" => Some(MalformedRequestHeader)
    case "MICROFRONTENDS_MIDDLEWARE_ERROR" => Some(MicrofrontendsMiddlewareError)
    case "MIDDLEWARE_INVOCATION_FAILED" => Some(MiddlewareInvocationFailed)
    case "MIDDLEWARE_INVOCATION_TIMEOUT" => Some(MiddlewareInvocationTimeout)
    case "MIDDLEWARE_RUNTIME_DEPRECATED" => Some(MiddlewareRuntimeDeprecated)
    case "NO_RESPONSE_FROM_FUNCTION" => Some(NoResponseFromFunction)
    case "NOT_FOUND" => Some(NotFound)
    case "OPTIMIZED_EXTERNAL_IMAGE_REQUEST_FAILED" => Some(OptimizedExternalImageRequestFailed)
    case "OPTIMIZED_EXTERNAL_IMAGE_REQUEST_INVALID" => Some(OptimizedExternalImageRequestInvalid)
    case "OPTIMIZED_EXTERNAL_IMAGE_REQUEST_UNAUTHORIZED" => Some(OptimizedExternalImageRequestUnauthorized)
    case "OPTIMIZED_EXTERNAL_IMAGE_TOO_MANY_REDIRECTS" => Some(OptimizedExternalImageTooManyRedirects)
    case "RANGE_END_NOT_VALID" => Some(RangeEndNotValid)
    case "RANGE_GROUP_NOT_VALID" => Some(RangeGroupNotValid)
    case "RANGE_MISSING_UNIT" => Some(RangeMissingUnit)
    case "RANGE_START_NOT_VALID" => Some(RangeStartNotValid)
    case "RANGE_UNIT_NOT_SUPPORTED" => Some(RangeUnitNotSupported)
    case "REQUEST_HEADER_TOO_LARGE" => Some(RequestHeaderTooLarge)
    case "RESOURCE_NOT_FOUND" => Some(ResourceNotFound)
    case "ROUTER_CANNOT_MATCH" => Some(RouterCannotMatch)
    case "ROUTER_EXTERNAL_TARGET_CONNECTION_ERROR" => Some(RouterExternalTargetConnectionError)
    case "ROUTER_EXTERNAL_TARGET_ERROR" => Some(RouterExternalTargetError)
    case "ROUTER_EXTERNAL_TARGET_HANDSHAKE_ERROR" => Some(RouterExternalTargetHandshakeError)
    case "ROUTER_TOO_MANY_HAS_SELECTIONS" => Some(RouterTooManyHasSelections)
    case "TOO_MANY_FILESYSTEM_CHECKS" => Some(TooManyFilesystemChecks)
    case "TOO_MANY_FORKS" => Some(TooManyForks)
    case "TOO_MANY_RANGES" => Some(TooManyRanges)
    case "URL_TOO_LONG" => Some(UrlTooLong)
    case "INTERNAL_CACHE_ERROR" => Some(InternalCacheError)
    case "INTERNAL_CACHE_KEY_TOO_LONG" => Some(InternalCacheKeyTooLong)
    case "INTERNAL_CACHE_LOCK_FULL" => Some(InternalCacheLockFull)
    case "INTERNAL_CACHE_LOCK_TIMEOUT" => Some(InternalCacheLockTimeout)
    case "INTERNAL_DEPLOYMENT_FETCH_FAILED" => Some(InternalDeploymentFetchFailed)
    case "INTERNAL_EDGE_FUNCTION_INVOCATION_FAILED" => Some(InternalEdgeFunctionInvocationFailed)
    case "INTERNAL_EDGE_FUNCTION_INVOCATION_TIMEOUT" => Some(InternalEdgeFunctionInvocationTimeout)
    case "INTERNAL_FUNCTION_INVOCATION_FAILED" => Some(InternalFunctionInvocationFailed)
    case "INTERNAL_FUNCTION_INVOCATION_TIMEOUT" => Some(InternalFunctionInvocationTimeout)
    case "INTERNAL_FUNCTION_NOT_FOUND" => Some(InternalFunctionNotFound)
    case "INTERNAL_FUNCTION_NOT_READY" => Some(InternalFunctionNotReady)
    case "INTERNAL_FUNCTION_SERVICE_UNAVAILABLE" => Some(InternalFunctionServiceUnavailable)
    case "INTERNAL_MICROFRONTENDS_BUILD_ERROR" => Some(InternalMicrofrontendsBuildError)
    case "INTERNAL_MICROFRONTENDS_INVALID_CONFIGURATION_ERROR" => Some(InternalMicrofrontendsInvalidConfigurationError)
    case "INTERNAL_MICROFRONTENDS_UNEXPECTED_ERROR" => Some(InternalMicrofrontendsUnexpectedError)
    case "INTERNAL_MISSING_RESPONSE_FROM_CACHE" => Some(InternalMissingResponseFromCache)
    case "INTERNAL_OPTIMIZED_IMAGE_REQUEST_FAILED" => Some(InternalOptimizedImageRequestFailed)
    case "INTERNAL_ROUTER_CANNOT_PARSE_PATH" => Some(InternalRouterCannotParsePath)
    case "INTERNAL_STATIC_REQUEST_FAILED" => Some(InternalStaticRequestFailed)
    case "INTERNAL_UNARCHIVE_FAILED" => Some(InternalUnarchiveFailed)
    case "INTERNAL_UNEXPECTED_ERROR" => Some(InternalUnexpectedError)
    case _ => None
  }

  /** The categories the tables file their codes under. */
  datatype Category = Function | Deployment | Dns | Cache | Runtime | Image | Request | Routing | Internal

  function CategoryName(cat: Category): string {
    match cat
    case Function => "Function"
    case Deployment => "Deployment"
    case Dns => "DNS"
    case Cache => "Cache"
    case Runtime => "Runtime"
    case Image => "Image"
    case Request => "Request"
    case Routing => "Routing"
    case Internal => "Internal"
  }

  /** One table entry under its code: the category and the HTTP status. */
  datatype Row = Row(category: Category, status: int)

  /** The application error table, in declaration order; every status is a redirect or an error. */
  function ApplicationRow(c: Code): (r: Option<Row>)
    ensures r.Some? ==> 300 <= r.value.status < 600
  {
    match c
    case BodyNotAStringFromFunction => Some(Row(Function, 502))
    case DeploymentBlocked => Some(Row(Deployment, 403))
    case DeploymentDeleted => Some(Row(Deployment, 410))
    case DeploymentDisabled => Some(Row(Deployment, 402))
    case DeploymentNotFound => Some(Row(Deployment, 404))
    case DeploymentNotReadyRedirecting => Some(Row(Deployment, 303))
    case DeploymentPaused => Some(Row(Deployment, 503))
    case DnsHostnameEmpty => Some(Row(Dns, 502))
    case DnsHostnameNotFound => Some(Row(Dns, 502))
    case DnsHostnameResolveFailed => Some(Row(Dns, 502))
    case DnsHostnameResolvedPrivate => Some(Row(Dns, 404))
    case DnsHostnameServerError => Some(Row(Dns, 502))
    case EdgeFunctionInvocationFailed => Some(Row(Function, 500))
    case EdgeFunctionInvocationTimeout => Some(Row(Function, 504))
    case FallbackBodyTooLarge => Some(Row(Cache, 502))
    case FunctionInvocationFailed => Some(Row(Function, 500))
    case FunctionInvocationTimeout => Some(Row(Function, 504))
    case FunctionPayloadTooLarge => Some(Row(Function, 413))
    case FunctionResponsePayloadTooLarge => Some(Row(Function, 500))
    case FunctionThrottled => Some(Row(Function, 503))
    case InfiniteLoopDetected => Some(Row(Runtime, 508))
    case InvalidImageOptimizeRequest => Some(Row(Image, 400))
    case InvalidRequestMethod => Some(Row(Request, 405))
    case MalformedRequestHeader => Some(Row(Request, 400))
    case MicrofrontendsMiddlewareError => Some(Row(Function, 500))
    case MiddlewareInvocationFailed => Some(Row(Function, 500))
    case MiddlewareInvocationTimeout => Some(Row(Function, 504))
    case MiddlewareRuntimeDeprecated => Some(Row(Runtime, 503))
    case NoResponseFromFunction => Some(Row(Function, 502))
    case NotFound => Some(Row(Deployment, 404))
    case OptimizedExternalImageRequestFailed => Some(Row(Image, 502))
    case OptimizedExternalImageRequestInvalid => Some(Row(Image, 502))
    case OptimizedExternalImageRequestUnauthorized => Some(Row(Image, 502))
    case OptimizedExternalImageTooManyRedirects => Some(Row(Image, 502))
    case RangeEndNotValid => Some(Row(Request, 416))
    case RangeGroupNotValid => Some(Row(Request, 416))
    case RangeMissingUnit => Some(Row(Request, 416))
    case RangeStartNotValid => Some(Row(Request, 416))
    case RangeUnitNotSupported => Some(Row(Request, 416))
    case RequestHeaderTooLarge => Some(Row(Request, 431))
    case ResourceNotFound => Some(Row(Request, 404))
    case RouterCannotMatch => Some(Row(Routing, 502))
    case RouterExternalTargetConnectionError => Some(Row(Routing, 502))
    case RouterExternalTargetError => Some(Row(Routing, 502))
    case RouterExternalTargetHandshakeError => Some(Row(Routing, 502))
    case RouterTooManyHasSelections => Some(Row(Routing, 502))
    case TooManyFilesystemChecks => Some(Row(Routing, 502))
    case TooManyForks => Some(Row(Routing, 502))
    case TooManyRanges => Some(Row(Request, 416))
    case UrlTooLong => Some(Row(Request, 414))
    case _ => None
  }

  /** The platform error table, in declaration order: every entry is an internal 500. */
  function PlatformRow(c: Code): (r: Option<Row>)
    ensures r.Some? ==> r.value == Row(Internal, 500)
  {
    match c
    case FunctionThrottled => Some(Row(Internal, 500))
    case InternalCacheError => Some(Row(Internal, 500))
    case InternalCacheKeyTooLong => Some(Row(Internal, 500))
    case InternalCacheLockFull => Some(Row(Internal, 500))
    case InternalCacheLockTimeout => Some(Row(Internal, 500))
    case InternalDeploymentFetchFailed => Some(Row(Internal, 500))
    case InternalEdgeFunctionInvocationFailed => Some(Row(Internal, 500))
    case InternalEdgeFunctionInvocationTimeout => Some(Row(Internal, 500))
    case InternalFunctionInvocationFailed => Some(Row(Internal, 500))
    case InternalFunctionInvocationTimeout => Some(Row(Internal, 500))
    case InternalFunctionNotFound => Some(Row(Internal, 500))
    case InternalFunctionNotReady => Some(Row(Internal, 500))
    case InternalFunctionServiceUnavailable => Some(Row(Internal, 500))
    case InternalMicrofrontendsBuildError => Some(Row(Internal, 500))
    case InternalMicrofrontendsInvalidConfigurationError => Some(Row(Internal, 500))
    case InternalMicrofrontendsUnexpectedError => Some(Row(Internal, 500))
    case InternalMissingResponseFromCache => Some(Row(Internal, 500))
    case InternalOptimizedImageRequestFailed => Some(Row(Internal, 500))
    case InternalRouterCannotParsePath => Some(Row(Internal, 500))
    case InternalStaticRequestFailed => Some(Row(Internal, 500))
    case InternalUnarchiveFailed => Some(Row(Internal, 500))
    case InternalUnexpectedError => Some(Row(Internal, 500))
    case _ => None
  }

  /** A looked-up key names an entry of the application table. */
  predicate InApplication(key: Option<Code>) {
    key.Some? && ApplicationRow(key.value).Some?
  }

  /** A looked-up key names an entry of the platform table. */
  predicate InPlatform(key: Option<Code>) {
    key.Some? && PlatformRow(key.value).Some?
  }

  /** isApplicationError: the string is a key of the application table. */
  predicate IsApplicationError(code: string) {
    InApplication(ParseCode(code))
  }

  /** isPlatformError: the string is a key of the platform table. */
  predicate IsPlatformError(code: string) {
    InPlatform(ParseCode(code))
  }

  /** What getErrorInfo returns: the entry, whose `code` field repeats its key. */
  datatype ErrorInfo = ErrorInfo(code: string, category: Category, status: int)

  /**
   * getErrorInfo for the string `code` once looked up as `key`, over the
   * spread of the application table, then the platform table: a code
   * declared in both keeps its platform entry, and an undeclared code has
   * none.
   */
  function InfoFor(code: string, key: Option<Code>): (r: Option<ErrorInfo>)
    ensures r.Some? <==> InApplication(key) || InPlatform(key)
    ensures r.Some? ==> r.value.code == code
    ensures InPlatform(key) ==> r == Some(ErrorInfo(code, Internal, 500))
    ensures InApplication(key) && !InPlatform(key) ==>
      var row := ApplicationRow(key.value).value;
      r == Some(ErrorInfo(code, row.category, row.status))
  {
    match key
    case None => None
    case Some(c) =>
      match PlatformRow(c)
      case Some(row) => Some(ErrorInfo(code, row.category, row.status))
      case None =>
        match ApplicationRow(c)
        case Some(row) => Some(ErrorInfo(code, row.category, row.status))
        case None => None
  }

  function GetErrorInfo(code: string): Option<ErrorInfo> {
    InfoFor(code, ParseCode(code))
  }

  const UnknownMessage := "An unknown error occurred."

  function PlatformMessage(code: string): string {
    "A platform error occurred (" + code + "). Please contact Vercel support."
  }

  function DefaultMessage(code: string): string {
    "An error occurred (" + code + ")."
  }

  /** The sentences getErrorMessage's switch chooses from. */
  datatype Phrase =
    | NotFoundText | BlockedText | DisabledText | DeletedText | PausedText | MethodText
    | HeaderText | PayloadText | UrlText | ProcessingText | TimeoutText

  /** None of these sentences has a space second or a `u` fourth, unlike the two generic messages. */
  function PhraseText(p: Phrase): (r: string)
    ensures 3 < |r| && r[1] != ' ' && r[3] != 'u'
  {
    match p
    case NotFoundText => "The requested resource was not found."
    case BlockedText => "The deployment has been blocked."
    case DisabledText => "The deployment is currently disabled."
    case DeletedText => "The deployment has been deleted."
    case PausedText => "The deployment is currently paused."
    case MethodText => "Invalid request method used."
    case HeaderText => "The request header is too large."
    case PayloadText => "The function payload is too large."
    case UrlText => "The URL is too long."
    case ProcessingText => "An error occurred while" + " processing your request."
    case TimeoutText => "The request timed out while processing."
  }

  /** The cases of getErrorMessage's switch; `None` is its default branch. */
  function SwitchMessage(c: Code): Option<Phrase>
  {
    match c
    case DeploymentNotFound => Some(NotFoundText)
    case NotFound => Some(NotFoundText)
    case DeploymentBlocked => Some(BlockedText)
    case DeploymentDisabled => Some(DisabledText)
    case DeploymentDeleted => Some(DeletedText)
    case DeploymentPaused => Some(PausedText)
    case InvalidRequestMethod => Some(MethodText)
    case RequestHeaderTooLarge => Some(HeaderText)
    case FunctionPayloadTooLarge => Some(PayloadText)
    case UrlTooLong => Some(UrlText)
    case FunctionInvocationFailed => Some(ProcessingText)
    case EdgeFunctionInvocationFailed => Some(ProcessingText)
    case MicrofrontendsMiddlewareError => Some(ProcessingText)
    case MiddlewareInvocationFailed => Some(ProcessingText)
    case FunctionInvocationTimeout => Some(TimeoutText)
    case EdgeFunctionInvocationTimeout => Some(TimeoutText)
    case MiddlewareInvocationTimeout => Some(TimeoutText)
    case _ => None
  }

  /**
   * getErrorMessage for the string `code` once looked up as `key`: unknown
   * codes first, then platform codes, then the application cases with
   * their default.
   */
  function MessageFor(code: string, key: Option<Code>): (m: string)
    ensures !InApplication(key) && !InPlatform(key) ==> m == UnknownMessage
    ensures InPlatform(key) ==> m == PlatformMessage(code)
    ensures InApplication(key) && !InPlatform(key) ==>
      var sw := SwitchMessage(key.value);
      m == (if sw.Some? then PhraseText(sw.value) else DefaultMessage(code))
  {
    if InfoFor(code, key).None? then UnknownMessage
    else if InPlatform(key) then PlatformMessage(code)
    else match SwitchMessage(key.value)
      case Some(p) => PhraseText(p)
      case None => DefaultMessage(code)
  }

  function GetErrorMessage(code: string): string {
    MessageFor(code, ParseCode(code))
  }

  /** The record handed to `setErrorState`. */
  datatype ErrorState = ErrorState(code: string, message: string, status: Option<int>, isPlatformError: bool)

  /** What handleVercelError does through its two optional callbacks. */
  datatype Effects = Effects(errorState: Option<ErrorState>, showError: bool)

  /** handleVercelError: each callback is invoked only when it was provided. */
  function HandleVercelError(code: string, hasSetErrorState: bool, hasSetShowError: bool): (e: Effects)
    ensures e.errorState.Some? <==> hasSetErrorState
    ensures e.showError <==> hasSetShowError
    ensures e.errorState.Some? ==>
      e.errorState.value.code == code && e.errorState.value.message == GetErrorMessage(code)
      && (e.errorState.value.status.Some? <==> IsApplicationError(code) || IsPlatformError(code))
      && (e.errorState.value.status.Some? ==> e.errorState.value.status.value == GetErrorInfo(code).value.status)
      && (e.errorState.value.isPlatformError <==> IsPlatformError(code))
  {
    var info := GetErrorInfo(code);
    var state := ErrorState(code, GetErrorMessage(code), if info.Some? then Some(info.value.status) else None,
                            IsPlatformError(code));
    Effects(if hasSetErrorState then Some(state) else None, hasSetShowError)
  }

  // ---------------------------------------------------------------------
  // Properties of the tables

  /** Every declared code is in at least one table, and FunctionThrottled is the one code in both. */
  lemma TablesCoverCodes(c: Code)
    ensures ApplicationRow(c).Some? || PlatformRow(c).Some?
    ensures ApplicationRow(c).Some? && PlatformRow(c).Some? <==> c == FunctionThrottled
  {
  }

  /** FUNCTION_THROTTLED is in both tables and resolves to the platform's internal 500, not the application's 503. */
  lemma ThrottledResolvesToPlatform(code: string)
    ensures InApplication(Some(FunctionThrottled)) && InPlatform(Some(FunctionThrottled))
    ensures ApplicationRow(FunctionThrottled) == Some(Row(Function, 503))
    ensures InfoFor(code, Some(FunctionThrottled)) == Some(ErrorInfo(code, Internal, 500))
    ensures MessageFor(code, Some(FunctionThrottled)) == PlatformMessage(code)
  {
  }

  /** Every platform code reads as an internal 500, whatever the application table says. */
  lemma PlatformCodesAreInternal(code: string, key: Option<Code>)
    requires InPlatform(key)
    ensures InfoFor(code, key).Some?
    ensures InfoFor(code, key).value.category == Internal && InfoFor(code, key).value.status == 500
  {
  }

  /** The characters that tell the four kinds of message apart. */
  lemma MessageShapes(code: string)
    ensures UnknownMessage[1] == 'n' && UnknownMessage[3] == 'u'
    ensures PlatformMessage(code)[1] == ' '
    ensures DefaultMessage(code)[1] == 'n' && DefaultMessage(code)[3] == 'e'
  {
  }

  /** The unknown message is produced for exactly the undeclared codes. */
  lemma UnknownMessageIffUndeclared(code: string, key: Option<Code>)
    ensures MessageFor(code, key) == UnknownMessage <==> !InApplication(key) && !InPlatform(key)
  {
    MessageShapes(code);
    if InApplication(key) && !InPlatform(key) && SwitchMessage(key.value).Some? {
      var text := PhraseText(SwitchMessage(key.value).value);
      assert text[3] != UnknownMessage[3];
    }
  }

  /** The platform message is produced for exactly the platform codes. */
  lemma PlatformMessageIffPlatform(code: string, key: Option<Code>)
    ensures MessageFor(code, key) == PlatformMessage(code) <==> InPlatform(key)
  {
    MessageShapes(code);
    if InApplication(key) && !InPlatform(key) && SwitchMessage(key.value).Some? {
      var text := PhraseText(SwitchMessage(key.value).value);
      assert text[1] != PlatformMessage(code)[1];
    }
  }

  /** Every switch case names an application code outside the platform table, so none of its cases is dead. */
  lemma SwitchCasesAreReachable(c: Code)
    requires SwitchMessage(c).Some?
    ensures ApplicationRow(c).Some? && PlatformRow(c).None?
  {
  }

  /** DEPLOYMENT_NOT_FOUND and NOT_FOUND share one message. */
  lemma NotFoundCodesShareMessage(deploymentNotFound: string, notFound: string)
    ensures MessageFor(deploymentNotFound, Some(DeploymentNotFound)) == MessageFor(notFound, Some(NotFound))
    ensures MessageFor(notFound, Some(NotFound)) == "The requested resource was not found."
  {
  }

  /** An application code with no case of its own gets the default message naming it. */
  lemma UncasedCodeGetsDefault(code: string)
    ensures MessageFor(code, Some(DnsHostnameNotFound)) == DefaultMessage(code)
  {
  }
}
