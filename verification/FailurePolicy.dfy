/** Classification and retry qualification of upstream exceptions, providers/failure_policy.py, and the
    stream variant of the predicate in providers/stream_recovery.py.

    An upstream exception is its class, the status it carries, the status read from its body and which
    of the three groups of markers occur in its text. Classes are listed with subclasses before the
    classes they derive from taken out, so that each exception has one class here. */
module FailurePolicy {
  import opened Options

  datatype Class =
    | SdkAuthentication | SdkPermissionDenied | SdkRateLimit | SdkBadRequest
    | SdkTimeout | SdkConnection | SdkInternalServer | SdkOtherApi
    | HttpStatus
    | ReadTimeout | ConnectTimeout | OtherHttpTimeout
    | ConnectError | ReadError | WriteError | OtherNetwork | RemoteProtocol
    | BuiltinTimeout | RetryableProtocol | Unrelated

  datatype Kind =
    | InvalidRequest | ContextWindowExceeded | Authentication | Permission | RateLimit
    | Overloaded | Timeout | Upstream | Unavailable

  datatype Failure = Failure(kind: Kind, status: int, retryable: bool)

  datatype Exc =
    | Raw(cls: Class, status: Option<int>, bodyStatus: Option<int>, rateText: bool, overloadText: bool, internalText: bool)
    | Final(failure: Failure)
    | Exhausted(lastError: Exc)

  predicate RetryableStatus(status: int) {
    status == 429 || 500 <= status <= 599
  }

  function Qualified(status: Option<int>): Option<int> {
    if status.Some? && RetryableStatus(status.value) then status else None
  }

  /** `retryable_transient_status`. */
  function TransientStatus(e: Exc): Option<int> {
    match e
    case Exhausted(_) => None
    case Final(failure) => if failure.retryable then Qualified(Some(failure.status)) else None
    case Raw(cls, status, bodyStatus, rateText, overloadText, internalText) =>
      if cls.SdkRateLimit? then Some(429)
      else if cls.HttpStatus? then Qualified(status)
      else if Qualified(status).Some? then status
      else if Qualified(bodyStatus).Some? then bodyStatus
      else if rateText then Some(429)
      else if overloadText then Some(503)
      else if internalText then Some(500)
      else None
  }

  predicate TransientOverload(e: Exc) {
    match e
    case Exhausted(_) => false
    case Final(failure) => failure.kind.Overloaded?
    case Raw(_, _, _, _, overloadText, _) => overloadText
  }

  /** `is_retryable_provider_error`. */
  predicate IsRetryable(e: Exc) {
    match e
    case Exhausted(_) => false
    case Final(failure) => failure.retryable
    case Raw(cls, _, _, _, _, _) =>
      if cls.SdkAuthentication? || cls.SdkPermissionDenied? || cls.SdkBadRequest? then false
      else if TransientStatus(e).Some? then true
      else
        || cls.BuiltinTimeout?
        || cls.ReadTimeout? || cls.ConnectTimeout? || cls.OtherHttpTimeout?
        || cls.ConnectError? || cls.ReadError? || cls.WriteError? || cls.OtherNetwork? || cls.RemoteProtocol?
        || cls.SdkTimeout? || cls.SdkConnection?
        || cls.RetryableProtocol?
  }

  /** `is_retryable_stream_error`. */
  predicate IsRetryableInStream(e: Exc) {
    match e
    case Exhausted(_) => false
    case Final(failure) => failure.retryable
    case Raw(cls, _, _, _, _, _) =>
      if cls.RetryableProtocol? then true
      else if cls.SdkAuthentication? || cls.SdkBadRequest? then false
      else if TransientStatus(e).Some? then true
      else
        || cls.BuiltinTimeout?
        || cls.ReadTimeout?
        || cls.ReadError? || cls.RemoteProtocol? || cls.ConnectError? || cls.WriteError? || cls.OtherNetwork?
        || cls.SdkTimeout? || cls.SdkConnection?
  }

  const OVERLOADED := Failure(Overloaded, 529, true)

  function ClassifyInternal(e: Exc): Failure
    requires e.Raw?
  {
    var status := if TransientStatus(e).Some? then TransientStatus(e) else e.status;
    if TransientOverload(e) then OVERLOADED
    else if status.Some? && 500 <= status.value <= 599 then Failure(Upstream, status.value, true)
    else Failure(Upstream, 500, true)
  }

  function ClassifyOtherApi(e: Exc): Failure
    requires e.Raw?
  {
    var status := TransientStatus(e);
    if status == Some(429) then Failure(RateLimit, 429, true)
    else if TransientOverload(e) then OVERLOADED
    else
      var effective := if status.Some? then status.value else if e.status.Some? then e.status.value else 500;
      if effective == 401 then Failure(Authentication, 401, false)
      else if effective == 402 then Failure(Permission, 402, false)
      else if effective == 403 then Failure(Permission, 403, false)
      else Failure(Upstream, effective, IsRetryable(e))
  }

  function ClassifyHttpStatus(status: int): Failure {
    if status == 401 then Failure(Authentication, 401, false)
    else if status == 402 then Failure(Permission, 402, false)
    else if status == 403 then Failure(Permission, 403, false)
    else if status == 429 then Failure(RateLimit, 429, true)
    else if status == 400 then Failure(InvalidRequest, 400, false)
    else if status == 502 || status == 503 || status == 504 then OVERLOADED
    else Failure(Upstream, status, RetryableStatus(status))
  }

  /** A response error always carries its response's status. */
  predicate CarriesItsStatus(e: Exc) {
    e.Raw? && e.cls.HttpStatus? ==> e.status.Some?
  }

  /** `_classify_provider_failure`, on an exception that is not a wrapper. */
  function ClassifyDirect(e: Exc): Failure
    requires !e.Exhausted? && CarriesItsStatus(e)
  {
    match e
    case Final(failure) => failure
    case Raw(cls, status, _, _, _, _) =>
      match cls
      case SdkAuthentication => Failure(Authentication, 401, false)
      case SdkPermissionDenied => Failure(Permission, 403, false)
      case SdkRateLimit => Failure(RateLimit, 429, true)
      case SdkBadRequest => Failure(InvalidRequest, 400, false)
      case SdkTimeout => Failure(Timeout, 500, true)
      case SdkConnection => Failure(Unavailable, 500, true)
      case SdkInternalServer => ClassifyInternal(e)
      case SdkOtherApi => ClassifyOtherApi(e)
      case HttpStatus => ClassifyHttpStatus(status.value)
      case BuiltinTimeout => Failure(Timeout, 502, IsRetryable(e))
      case ReadTimeout => Failure(Timeout, 502, IsRetryable(e))
      case ConnectTimeout => Failure(Timeout, 502, IsRetryable(e))
      case OtherHttpTimeout => Failure(Timeout, 502, IsRetryable(e))
      case ConnectError => Failure(Unavailable, 502, IsRetryable(e))
      case ReadError => Failure(Unavailable, 502, IsRetryable(e))
      case WriteError => Failure(Unavailable, 502, IsRetryable(e))
      case OtherNetwork => Failure(Unavailable, 502, IsRetryable(e))
      case RemoteProtocol => Failure(Upstream, 502, IsRetryable(e))
      case RetryableProtocol => Failure(Upstream, 502, IsRetryable(e))
      case Unrelated => Failure(Upstream, 502, IsRetryable(e))
  }

  // ---- Which failures are retried ----

  /** The statuses on which a failure is transient. */
  predicate TransientNumber(status: Option<int>) {
    status.Some? && (status.value == 429 || (500 <= status.value && status.value < 600))
  }

  /** The exception is raised where no response came: a timeout, a lost or refused connection, or a stream
      that broke its protocol. */
  predicate NoResponse(cls: Class) {
    cls in {SdkTimeout, SdkConnection, BuiltinTimeout, ReadTimeout, ConnectTimeout, OtherHttpTimeout,
            ConnectError, ReadError, WriteError, OtherNetwork, RemoteProtocol, RetryableProtocol}
  }

  /** An upstream exception is retried if and only if it is not one of the three that the request itself is
      to blame for, and no response came, or the SDK calls it a rate limit, or its status is 429 or between
      500 and 599, or, for all but plain response errors, its body has such a status or its text one of the
      markers. */
  lemma RetriedExactly(e: Exc)
    requires e.Raw?
    ensures
      IsRetryable(e) <==>
      && e.cls !in {SdkAuthentication, SdkPermissionDenied, SdkBadRequest}
      && (|| NoResponse(e.cls)
          || e.cls == SdkRateLimit
          || TransientNumber(e.status)
          || (e.cls != HttpStatus
              && (TransientNumber(e.bodyStatus) || e.rateText || e.overloadText || e.internalText)))
  {
  }

  /** Which status the retry is for: the exception's own if that is transient, else the body's, else the one
      the text stands for. */
  lemma RetryStatusIs(e: Exc)
    requires e.Raw? && e.cls != SdkRateLimit
    ensures
      TransientStatus(e) ==
        if TransientNumber(e.status) then e.status
        else if e.cls == HttpStatus then None
        else if TransientNumber(e.bodyStatus) then e.bodyStatus
        else if e.rateText then Some(429)
        else if e.overloadText then Some(503)
        else if e.internalText then Some(500)
        else None
  {
  }

  /** What the kind of a classified failure says of the exception, both ways. */
  lemma KindsAreExact(e: Exc)
    requires e.Raw? && CarriesItsStatus(e)
    ensures
      var f := ClassifyDirect(e);
      var status := if e.cls == HttpStatus then e.status.value else OtherApiStatus(e);
      var plain := e.cls == HttpStatus || (e.cls == SdkOtherApi && !e.overloadText);
      && (f.kind.Authentication? <==> e.cls == SdkAuthentication || (plain && status == 401))
      && (f.kind.Permission? <==> e.cls == SdkPermissionDenied || (plain && (status == 402 || status == 403)))
      && (f.kind.RateLimit? <==>
          e.cls == SdkRateLimit || ((e.cls == HttpStatus || e.cls == SdkOtherApi) && status == 429))
      && (f.kind.InvalidRequest? <==> e.cls == SdkBadRequest || (e.cls == HttpStatus && status == 400))
      && (f.kind.Overloaded? <==>
          || (e.cls == HttpStatus && status in {502, 503, 504})
          || (e.overloadText && (e.cls == SdkInternalServer || (e.cls == SdkOtherApi && status != 429))))
      && (f.kind.Timeout? <==> e.cls in {SdkTimeout, BuiltinTimeout, ReadTimeout, ConnectTimeout, OtherHttpTimeout})
      && (f.kind.Unavailable? <==> e.cls in {SdkConnection, ConnectError, ReadError, WriteError, OtherNetwork})
      && (NoResponse(e.cls) || e.cls == Unrelated ==>
            f.status == if e.cls == SdkTimeout || e.cls == SdkConnection then 500 else 502)
  {
    if e.cls == SdkOtherApi {
      RetryStatusIs(e);
    }
  }

  /** The status a response is reported with: its own, or 529 for overload; for the SDK's internal and other
      errors the transient status they name, if any, and 500 where there is nothing better. */
  lemma StatusesAreExact(e: Exc)
    requires e.Raw? && CarriesItsStatus(e)
    ensures
      var status, named := ClassifyDirect(e).status, OtherApiStatus(e);
      && (e.cls == HttpStatus ==> status == if e.status.value in {502, 503, 504} then 529 else e.status.value)
      && (e.cls == SdkInternalServer ==>
            status == if e.overloadText then 529 else if 500 <= named <= 599 then named else 500)
      && (e.cls == SdkOtherApi ==> status == if named == 429 then 429 else if e.overloadText then 529 else named)
      && (e.cls == SdkAuthentication ==> status == 401) && (e.cls == SdkPermissionDenied ==> status == 403)
      && (e.cls == SdkRateLimit ==> status == 429) && (e.cls == SdkBadRequest ==> status == 400)
  {
    if e.cls != SdkRateLimit {
      RetryStatusIs(e);
    }
  }

  /** The status under which other SDK errors are classified. */
  function OtherApiStatus(e: Exc): int
    requires e.Raw?
  {
    if TransientNumber(e.status) then e.status.value
    else if TransientNumber(e.bodyStatus) then e.bodyStatus.value
    else if e.rateText then 429
    else if e.overloadText then 503
    else if e.internalText then 500
    else if e.status.Some? then e.status.value
    else 500
  }

  // ---- Wrappers ----

  function Underlying(e: Exc): (raw: Exc)
    ensures !raw.Exhausted?
    ensures e.Exhausted? ==> raw < e
    ensures !e.Exhausted? ==> raw == e
  {
    if e.Exhausted? then Underlying(e.lastError) else e
  }

  /** `underlying_provider_error`: unwrapping ends, at the innermost error. */
  method UnderlyingProviderError(e: Exc) returns (raw: Exc)
    ensures raw == Underlying(e) && !raw.Exhausted?
  {
    raw := e;
    while raw.Exhausted?
      invariant Underlying(raw) == Underlying(e)
      decreases raw
    {
      raw := raw.lastError;
    }
  }

  /** `classify_provider_failure` up to the wording; the adapter's override speaks first. */
  function Classify(e: Exc, override: Exc -> Option<Failure>): Failure
    requires CarriesItsStatus(Underlying(e))
  {
    var raw := Underlying(e);
    if raw.Final? then raw.failure
    else
      match override(raw)
      case Some(failure) => failure
      case None => ClassifyDirect(raw)
  }

  /** However deeply a failure is wrapped, it is classified as its innermost error. */
  lemma {:induction false} WrappersAreTransparent(e: Exc, override: Exc -> Option<Failure>)
    requires CarriesItsStatus(Underlying(e))
    ensures Underlying(Underlying(e)) == Underlying(e)
    ensures Classify(e, override) == Classify(Underlying(e), override)
    ensures Classify(Exhausted(e), override) == Classify(e, override)
    ensures !IsRetryable(Exhausted(e))
  {
    if e.Exhausted? {
      WrappersAreTransparent(e.lastError, override);
    }
  }

  // ---- Agreement ----

  predicate Transient(status: Option<int>) {
    status.Some? && RetryableStatus(status.value)
  }

  /** An internal-server error of the SDK whose status is none to retry, whose body names none, and whose
      text has no marker. */
  predicate SilentInternalError(e: Exc) {
    && e.Raw? && e.cls.SdkInternalServer?
    && !Transient(e.status) && !Transient(e.bodyStatus)
    && !e.rateText && !e.overloadText && !e.internalText
  }

  /** The classified failure is marked retryable exactly when the admission predicate would retry the
      exception, except for one family: internal-server errors whose status is no retryable one and
      whose body and text say nothing. */
  lemma ClassifierAgreesWithRetry(e: Exc)
    requires !e.Exhausted? && CarriesItsStatus(e)
    ensures (ClassifyDirect(e).retryable <==> IsRetryable(e)) <==> !SilentInternalError(e)
  {
    if e.Raw? && e.cls.SdkOtherApi? && e.overloadText {
      assert TransientStatus(e).Some?;
    }
  }

  /** What `ProviderAttempt.retry` asks: the predicate on the failure the adapter's override gives, or on
      the exception itself. */
  predicate Retried(e: Exc, override: Exc -> Option<Failure>) {
    match override(e)
    case Some(failure) => IsRetryable(Final(failure))
    case None => IsRetryable(e)
  }

  /** An override speaks of raw exceptions only, as all overrides of the adapters do; the classifier does
      not ask it about a canonical failure. */
  ghost predicate LeavesCanonical(override: Exc -> Option<Failure>) {
    forall failure :: override(Final(failure)).None?
  }

  /** The same with an adapter's override, as a failed attempt and the final classification see it: the
      two agree except on the silent family where the override does not speak. */
  lemma ClassificationAgreesWithAttempt(e: Exc, override: Exc -> Option<Failure>)
    requires !e.Exhausted? && CarriesItsStatus(e) && LeavesCanonical(override)
    ensures
      (Classify(e, override).retryable <==> Retried(e, override)) <==>
      !(SilentInternalError(e) && override(e).None?)
  {
    ClassifierAgreesWithRetry(e);
  }

  /** That overrides leave canonical failures alone is needed: one that did not could make an attempt
      retry what is classified as final. */
  lemma RemarkingOverrideDisagrees() returns (e: Exc, override: Exc -> Option<Failure>)
    ensures !e.Exhausted? && CarriesItsStatus(e) && !LeavesCanonical(override)
    ensures !Classify(e, override).retryable && Retried(e, override)
  {
    e := Final(Failure(Upstream, 400, false));
    override := (x: Exc) => if x.Final? then Some(OVERLOADED) else None;
    assert override(e).Some?;
  }

  /** With the statuses 500 to 599 on internal-server errors there is no exception to the rule. */
  lemma ClassifierAgreesOnServerErrors(e: Exc)
    requires !e.Exhausted? && CarriesItsStatus(e)
    requires e.Raw? && e.cls.SdkInternalServer? ==> e.status.Some? && 500 <= e.status.value <= 599
    ensures ClassifyDirect(e).retryable <==> IsRetryable(e)
  {
    ClassifierAgreesWithRetry(e);
  }

  /** The SDK raises its internal-server error for every status from 500 upwards, so the family is not
      empty: one with status 600 is classified as retryable but would not be retried. */
  lemma StatusAboveRangeDisagrees() returns (e: Exc)
    ensures e == Raw(SdkInternalServer, Some(600), None, false, false, false)
    ensures ClassifyDirect(e).retryable && !IsRetryable(e)
  {
    e := Raw(SdkInternalServer, Some(600), None, false, false, false);
    assert SilentInternalError(e);
    ClassifierAgreesWithRetry(e);
  }

  /** Classifying is final: the canonical failure classifies as itself, and the predicate then reads its
      retryable mark. */
  lemma ClassifyingTwiceIsOnce(e: Exc, override: Exc -> Option<Failure>)
    requires CarriesItsStatus(Underlying(e))
    ensures
      var failure := Classify(e, override);
      && Classify(Final(failure), override) == failure
      && (IsRetryable(Final(failure)) <==> failure.retryable)
  {
    assert Underlying(Final(Classify(e, override))) == Final(Classify(e, override));
  }

  /** Where the predicate for streams and the one for admission part: denied permission that also
      reports a transient status is retried only in a stream, and a timeout that is not a read timeout
      and reports no status only at admission. */
  lemma StreamPredicateDiffers(e: Exc)
    ensures
      (IsRetryableInStream(e) <==> IsRetryable(e)) <==>
      !(e.Raw? && ((e.cls.SdkPermissionDenied? && TransientStatus(e).Some?)
                   || ((e.cls.ConnectTimeout? || e.cls.OtherHttpTimeout?) && TransientStatus(e).None?)))
  {
  }

  /** The SDK raises the classes it has for single statuses with those statuses. */
  predicate SdkConvention(e: Exc) {
    e.Raw? ==>
      && (e.cls.SdkBadRequest? ==> e.status == Some(400))
      && (e.cls.SdkAuthentication? ==> e.status == Some(401))
      && (e.cls.SdkPermissionDenied? ==> e.status == Some(403))
      && (e.cls.SdkRateLimit? ==> e.status == Some(429))
      && (e.cls.SdkInternalServer? ==> e.status.Some? && 500 <= e.status.value <= 599)
  }

  predicate IsResponse(e: Exc) {
    e.Raw? && (e.cls.HttpStatus? || e.cls.SdkBadRequest? || e.cls.SdkAuthentication? || e.cls.SdkPermissionDenied?
               || e.cls.SdkRateLimit? || e.cls.SdkInternalServer? || e.cls.SdkOtherApi?)
  }

  /** An error response is classified under its own status, unless it reports overload, which becomes
      529, or names another transient status in its body or text. */
  lemma StatusIsPreserved(e: Exc)
    requires IsResponse(e) && e.status.Some? && SdkConvention(e)
    ensures
      var f := ClassifyDirect(e);
      f.status == e.status.value || f == OVERLOADED || TransientStatus(e) == Some(f.status)
    ensures
      var f := ClassifyDirect(e);
      f == OVERLOADED ==> e.overloadText || (e.cls.HttpStatus? && 502 <= e.status.value <= 504)
    ensures
      e.bodyStatus.None? && !e.rateText && !e.overloadText && !e.internalText && ClassifyDirect(e) != OVERLOADED ==>
      ClassifyDirect(e).status == e.status.value
  {
  }

  /** What a kind tells about the status and the retry: only transient kinds are ever retryable. */
  lemma KindsAreConsistent(e: Exc)
    requires e.Raw? && CarriesItsStatus(e)
    ensures
      var f := ClassifyDirect(e);
      && (f.kind.Overloaded? ==> f == OVERLOADED)
      && (f.kind.RateLimit? ==> f.status == 429 && f.retryable)
      && (f.kind.Authentication? ==> f.status == 401 && !f.retryable)
      && (f.kind.Permission? ==> (f.status == 402 || f.status == 403) && !f.retryable)
      && (f.kind.InvalidRequest? ==> f.status == 400 && !f.retryable)
      && (f.kind.Timeout? || f.kind.Unavailable? ==> f.retryable)
      && !f.kind.ContextWindowExceeded?
  {
  }
}
