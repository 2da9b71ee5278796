/** The error taxonomy of src/unified_provider/exceptions.py, together with
    the Python built-in errors that the modelled code lets escape. */
module Exceptions {
  import opened Wrappers
  import opened JsonValues

  /** The seven exception classes. `Generic` is a bare ProviderError. */
  datatype ErrorKind =
    | Generic
    | ConfigurationError
    | APIError(statusCode: Option<int>, responseData: Option<Json>)
    | RateLimitError(retryAfter: Option<int>)
    | AuthenticationError
    | ModelNotFoundError
    | ValidationError

  /** A raised ProviderError: its class, its message and the provider it names. */
  datatype ProviderError = ProviderError(kind: ErrorKind, message: string, provider: Option<string>)

  /** Everything an operation of the model can raise: a ProviderError, a
      ValueError (bad configuration or a value outside an enum), or a
      KeyError/IndexError/TypeError from reading a JSON body of the wrong
      shape, gathered as DataError. */
  datatype Failure =
    | Raised(err: ProviderError)
    | ValueError(message: string)
    | DataError(message: string)

  const RateLimitStatus: int := 429
  const AuthenticationStatus: int := 401

  // ---------------------------------------------------------------------
  // Attributes as Python reads them.

  /** `status_code`: fixed for the two API subclasses, absent outside the
      API branch of the hierarchy. */
  function StatusCode(e: ProviderError): Option<int> {
    match e.kind
    case APIError(code, _) => code
    case RateLimitError(_) => Some(RateLimitStatus)
    case AuthenticationError => Some(AuthenticationStatus)
    case _ => None
  }

  /** `response_data`: only a plain APIError can carry one. */
  function ResponseData(e: ProviderError): Option<Json> {
    if e.kind.APIError? then e.kind.responseData else None
  }

  function RetryAfter(e: ProviderError): Option<int> {
    if e.kind.RateLimitError? then e.kind.retryAfter else None
  }

  // ---------------------------------------------------------------------
  // Constructors with the source's default arguments.

  function NewProviderError(message: string, provider: Option<string> := None): (e: ProviderError)
    ensures e.message == message && e.provider == provider
    ensures IsInstance(e, ProviderErrorClass) && !IsAPIError(e)
    ensures StatusCode(e).None? && ResponseData(e).None?
  {
    ProviderError(Generic, message, provider)
  }

  function NewConfigurationError(message: string, provider: Option<string> := None): (e: ProviderError)
    ensures e.message == message && e.provider == provider
    ensures IsInstance(e, ConfigurationErrorClass) && !IsAPIError(e)
    ensures StatusCode(e).None?
  {
    ProviderError(ConfigurationError, message, provider)
  }

  function NewAPIError(message: string, provider: Option<string> := None,
                       statusCode: Option<int> := None, responseData: Option<Json> := None): (e: ProviderError)
    ensures e.message == message && e.provider == provider
    ensures IsAPIError(e)
    ensures StatusCode(e) == statusCode && ResponseData(e) == responseData
  {
    ProviderError(APIError(statusCode, responseData), message, provider)
  }

  function NewRateLimitError(message: string, provider: Option<string> := None,
                             retryAfter: Option<int> := None): (e: ProviderError)
    ensures e.message == message && e.provider == provider
    ensures IsAPIError(e) && IsInstance(e, RateLimitErrorClass)
    ensures StatusCode(e) == Some(429) && RetryAfter(e) == retryAfter
    ensures ResponseData(e).None?
  {
    ProviderError(RateLimitError(retryAfter), message, provider)
  }

  function NewAuthenticationError(message: string, provider: Option<string> := None): (e: ProviderError)
    ensures e.message == message && e.provider == provider
    ensures IsAPIError(e) && IsInstance(e, AuthenticationErrorClass)
    ensures StatusCode(e) == Some(401) && ResponseData(e).None?
  {
    ProviderError(AuthenticationError, message, provider)
  }

  function NewModelNotFoundError(message: string, provider: Option<string> := None): (e: ProviderError)
    ensures e.message == message && e.provider == provider
    ensures IsInstance(e, ModelNotFoundErrorClass) && IsInstance(e, ProviderErrorClass)
    ensures !IsAPIError(e) && StatusCode(e).None?
  {
    ProviderError(ModelNotFoundError, message, provider)
  }

  function NewValidationError(message: string, provider: Option<string> := None): (e: ProviderError)
    ensures e.message == message && e.provider == provider
    ensures IsInstance(e, ValidationErrorClass) && IsInstance(e, ProviderErrorClass)
    ensures !IsAPIError(e) && StatusCode(e).None?
  {
    ProviderError(ValidationError, message, provider)
  }

  // ---------------------------------------------------------------------
  // The class hierarchy as declared, and `isinstance` derived from it.

  datatype ErrorClass =
    | ProviderErrorClass
    | ConfigurationErrorClass
    | APIErrorClass
    | RateLimitErrorClass
    | AuthenticationErrorClass
    | ModelNotFoundErrorClass
    | ValidationErrorClass

  /** The declared base class of each class. */
  function Base(c: ErrorClass): Option<ErrorClass> {
    match c
    case ProviderErrorClass => None
    case ConfigurationErrorClass => Some(ProviderErrorClass)
    case APIErrorClass => Some(ProviderErrorClass)
    case RateLimitErrorClass => Some(APIErrorClass)
    case AuthenticationErrorClass => Some(APIErrorClass)
    case ModelNotFoundErrorClass => Some(ProviderErrorClass)
    case ValidationErrorClass => Some(ProviderErrorClass)
  }

  /** Distance from the root of the hierarchy. */
  function Depth(c: ErrorClass): nat {
    match c
    case ProviderErrorClass => 0
    case RateLimitErrorClass => 2
    case AuthenticationErrorClass => 2
    case _ => 1
  }

  /** `issubclass(c, d)`: d is c or one of its bases, transitively. */
  predicate IsSubclass(c: ErrorClass, d: ErrorClass)
    decreases Depth(c)
  {
    c == d ||
    match Base(c)
    case None => false
    case Some(b) => IsSubclass(b, d)
  }

  function ClassOf(k: ErrorKind): ErrorClass {
    match k
    case Generic => ProviderErrorClass
    case ConfigurationError => ConfigurationErrorClass
    case APIError(_, _) => APIErrorClass
    case RateLimitError(_) => RateLimitErrorClass
    case AuthenticationError => AuthenticationErrorClass
    case ModelNotFoundError => ModelNotFoundErrorClass
    case ValidationError => ValidationErrorClass
  }

  /** `isinstance(e, c)`. */
  predicate IsInstance(e: ProviderError, c: ErrorClass) {
    IsSubclass(ClassOf(e.kind), c)
  }

  /** Caught by `except APIError`. */
  predicate IsAPIError(e: ProviderError) {
    e.kind.APIError? || e.kind.RateLimitError? || e.kind.AuthenticationError?
  }

  /** Caught by `except ProviderError`. */
  predicate IsProviderError(f: Failure) {
    f.Raised?
  }

  /** Every class sits below ProviderError, the API branch is exactly the
      three API kinds, and a status code is only ever carried inside it. */
  lemma {:induction false} HierarchyFacts(e: ProviderError)
    ensures IsInstance(e, ProviderErrorClass)
    ensures IsInstance(e, APIErrorClass) <==> IsAPIError(e)
    ensures StatusCode(e).Some? ==> IsAPIError(e)
    ensures ResponseData(e).Some? ==> IsAPIError(e)
    ensures e.kind.RateLimitError? ==> StatusCode(e) == Some(429)
    ensures e.kind.AuthenticationError? ==> StatusCode(e) == Some(401)
  {
    match e.kind
    case RateLimitError(_) =>
      assert IsSubclass(APIErrorClass, ProviderErrorClass);
    case AuthenticationError =>
      assert IsSubclass(APIErrorClass, ProviderErrorClass);
    case _ =>
  }
}
