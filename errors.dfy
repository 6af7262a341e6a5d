/** The unified error taxonomy: error-code catalogues described as table rows
    (domain, prefix, index, HTTP status, display tag), the `CqrsError` record
    built from them, its builders, its display form, and the two catalogues the
    crate itself defines (infrastructure, prefix 0; generic, prefix 1). */
module Errors {
  import opened Wrappers
  import opened Text
  import Json

  /** One variant of a `CqrsErrorCode` catalogue: the domain and prefix of its
      catalogue, its index within it, its HTTP status and its display tag. */
  datatype ErrorCode = ErrorCode(domain: string, prefix: nat, index: nat, status: nat, tag: string)

  /** `internal_code`: `domain_prefix * 1000 + error_index`. */
  function InternalCode(c: ErrorCode): nat
  {
    c.prefix * 1000 + c.index
  }

  /** `code_string`: the upper-cased domain, `_`, then the display tag. */
  function CodeString(c: ErrorCode): string
  {
    ToUpper(c.domain) + "_" + c.tag
  }

  /** The internal code is computed in a `u16`; it fits when the prefix and
      the index stay inside their documented ranges. */
  lemma InternalCodeFitsU16(c: ErrorCode)
    requires c.prefix <= 64 && c.index <= 999
    ensures InternalCode(c) < 0x1_0000
  {
  }

  /** The internal code determines prefix and index, so codes are unique per
      (prefix, index) pair as long as indices stay below 1000. */
  lemma {:induction false} InternalCodeDetermines(a: ErrorCode, b: ErrorCode)
    requires a.index < 1000 && b.index < 1000
    requires InternalCode(a) == InternalCode(b)
    ensures a.prefix == b.prefix && a.index == b.index
  {
    assert InternalCode(a) / 1000 == a.prefix by {
      DivideBack(a.prefix, a.index);
    }
    assert InternalCode(b) / 1000 == b.prefix by {
      DivideBack(b.prefix, b.index);
    }
  }

  lemma DivideBack(p: nat, i: nat)
    requires i < 1000
    ensures (p * 1000 + i) / 1000 == p
  {
  }

  /** The code string of a lower-case ASCII domain starts with the domain in
      upper case, followed by `_` and the tag. */
  lemma CodeStringShape(c: ErrorCode)
    ensures |CodeString(c)| == |c.domain| + 1 + |c.tag|
    ensures CodeString(c)[|c.domain|] == '_'
    ensures CodeString(c)[|c.domain| + 1..] == c.tag
    ensures forall i :: 0 <= i < |c.domain| ==> CodeString(c)[i] == AsciiUpper(c.domain[i])
  {
    assert CodeString(c)[|c.domain| + 1..] == c.tag;
  }

  // ============================================
  // CqrsError
  // ============================================

  /** `CqrsErrorData`: the one error shape surfaced across every boundary. */
  datatype CqrsError = CqrsError(
    domain: string,
    code: string,
    internalCode: nat,
    status: nat,
    message: string,
    details: Option<Json.Value>,
    requestId: Option<string>)

  /** `CqrsError::from_code`: copies the code's metadata, no details, no request id. */
  function FromCode(c: ErrorCode, message: string): (r: CqrsError)
    ensures r.domain == c.domain && r.code == CodeString(c)
    ensures r.internalCode == c.prefix * 1000 + c.index && r.status == c.status
    ensures r.message == message && r.details == None && r.requestId == None
  {
    CqrsError(c.domain, CodeString(c), InternalCode(c), c.status, message, None, None)
  }

  /** `with_details`: sets the details and nothing else. */
  function WithDetails(e: CqrsError, details: Json.Value): (r: CqrsError)
    ensures r.details == Some(details)
    ensures r.domain == e.domain && r.code == e.code && r.internalCode == e.internalCode
    ensures r.status == e.status && r.message == e.message && r.requestId == e.requestId
  {
    e.(details := Some(details))
  }

  /** `with_request_id`: sets the request id and nothing else. */
  function WithRequestId(e: CqrsError, requestId: string): (r: CqrsError)
    ensures r.requestId == Some(requestId)
    ensures r.domain == e.domain && r.code == e.code && r.internalCode == e.internalCode
    ensures r.status == e.status && r.message == e.message && r.details == e.details
  {
    e.(requestId := Some(requestId))
  }

  /** `http_status`: the stored status when it is a valid HTTP status code
      (`StatusCode::from_u16` accepts 100..=999), 500 otherwise. */
  function HttpStatus(e: CqrsError): (s: nat)
    ensures 100 <= s <= 999
    ensures 100 <= e.status <= 999 ==> s == e.status
    ensures !(100 <= e.status <= 999) ==> s == 500
  {
    if 100 <= e.status <= 999 then e.status else 500
  }

  /** `Display for CqrsError`: `[internal_code] code: message`. */
  function Display(e: CqrsError): string
  {
    "[" + NatToString(e.internalCode) + "] " + e.code + ": " + e.message
  }

  /** The display form can be read back: the digits between `[` and `]` give
      the internal code, followed by `] `, the code, `: ` and the message. */
  lemma DisplayReadsBack(e: CqrsError)
    ensures var d := Display(e); var k := |NatToString(e.internalCode)|;
      && d[0] == '['
      && (forall i :: 1 <= i < 1 + k ==> IsDigit(d[i]))
      && ParseDecimal(d[1..1 + k]) == e.internalCode
      && d[1 + k..3 + k] == "] "
      && OccursAt(e.code, d, 3 + k)
      && OccursAt(": ", d, 3 + k + |e.code|)
      && d[5 + k + |e.code|..] == e.message
  {
    var d := Display(e);
    var n := NatToString(e.internalCode);
    var k := |n|;
    SixPieces("[", n, "] ", e.code, ": ", e.message);
    ParseNatToString(e.internalCode);
    assert d[1..1 + k] == n;
  }

  // ============================================
  // Infrastructure error codes (prefix 0)
  // ============================================

  datatype InfrastructureErrorCode =
    | InternalError | ValidationFailed | NotFound | Conflict | Unauthorized | Forbidden | Gone
    | DatabaseError | SerializationError | AggregateNotFound | ConcurrencyError | DomainError
    | CqrsInternalError | ConfigurationError | Unknown

  function InfrastructureIndex(c: InfrastructureErrorCode): nat
  {
    match c
    case InternalError => 0
    case ValidationFailed => 1
    case NotFound => 2
    case Conflict => 3
    case Unauthorized => 4
    case Forbidden => 5
    case Gone => 6
    case DatabaseError => 10
    case SerializationError => 11
    case AggregateNotFound => 12
    case ConcurrencyError => 13
    case DomainError => 14
    case CqrsInternalError => 15
    case ConfigurationError => 16
    case Unknown => 99
  }

  function InfrastructureStatus(c: InfrastructureErrorCode): nat
  {
    match c
    case InternalError => 500
    case ValidationFailed => 400
    case NotFound | AggregateNotFound => 404
    case Conflict | ConcurrencyError => 409
    case Unauthorized => 401
    case Forbidden => 403
    case Gone => 410
    case DatabaseError | SerializationError | CqrsInternalError | ConfigurationError | Unknown => 500
    case DomainError => 400
  }

  function InfrastructureTag(c: InfrastructureErrorCode): string
  {
    match c
    case InternalError => "INTERNAL_ERROR"
    case ValidationFailed => "VALIDATION_FAILED"
    case NotFound => "NOT_FOUND"
    case Conflict => "CONFLICT"
    case Unauthorized => "UNAUTHORIZED"
    case Forbidden => "FORBIDDEN"
    case Gone => "GONE"
    case DatabaseError => "DATABASE_ERROR"
    case SerializationError => "SERIALIZATION_ERROR"
    case AggregateNotFound => "AGGREGATE_NOT_FOUND"
    case ConcurrencyError => "CONCURRENCY_ERROR"
    case DomainError => "DOMAIN_ERROR"
    case CqrsInternalError => "CQRS_ERROR"
    case ConfigurationError => "CONFIGURATION_ERROR"
    case Unknown => "UNKNOWN"
  }

  /** The catalogue row of an infrastructure code: domain `infrastructure`, prefix 0. */
  function Infrastructure(c: InfrastructureErrorCode): (r: ErrorCode)
    ensures r.domain == "infrastructure" && r.prefix == 0
    ensures r.index == InfrastructureIndex(c) && r.status == InfrastructureStatus(c)
    ensures r.tag == InfrastructureTag(c)
  {
    ErrorCode("infrastructure", 0, InfrastructureIndex(c), InfrastructureStatus(c), InfrastructureTag(c))
  }

  /** The code strings of the infrastructure catalogue: `INFRASTRUCTURE_` and the tag. */
  lemma InfrastructureCodeString(c: InfrastructureErrorCode)
    ensures CodeString(Infrastructure(c)) == "INFRASTRUCTURE_" + InfrastructureTag(c)
  {
    var u := ToUpper("infrastructure");
    assert u == "INFRASTRUCTURE";
  }

  /** Distinct infrastructure codes have distinct indices, hence distinct internal codes. */
  lemma InfrastructureIndicesDistinct(a: InfrastructureErrorCode, b: InfrastructureErrorCode)
    ensures InfrastructureIndex(a) == InfrastructureIndex(b) ==> a == b
    ensures a != b ==> InternalCode(Infrastructure(a)) != InternalCode(Infrastructure(b))
  {
    InfrastructureIndexInverse(a);
    InfrastructureIndexInverse(b);
    InfrastructureInternalCode(a);
    InfrastructureInternalCode(b);
  }

  /** With prefix 0, an infrastructure code's internal code is its index. */
  lemma InfrastructureInternalCode(c: InfrastructureErrorCode)
    ensures InternalCode(Infrastructure(c)) == InfrastructureIndex(c)
  {
    var r := Infrastructure(c);
    assert r.prefix == 0 && r.index == InfrastructureIndex(c);
  }

  /** The variant an infrastructure index stands for. */
  function InfrastructureOfIndex(i: nat): Option<InfrastructureErrorCode>
  {
    if i == 0 then Some(InfrastructureErrorCode.InternalError)
    else if i == 1 then Some(InfrastructureErrorCode.ValidationFailed)
    else if i == 2 then Some(InfrastructureErrorCode.NotFound)
    else if i == 3 then Some(InfrastructureErrorCode.Conflict)
    else if i == 4 then Some(InfrastructureErrorCode.Unauthorized)
    else if i == 5 then Some(InfrastructureErrorCode.Forbidden)
    else if i == 6 then Some(InfrastructureErrorCode.Gone)
    else if i == 10 then Some(InfrastructureErrorCode.DatabaseError)
    else if i == 11 then Some(InfrastructureErrorCode.SerializationError)
    else if i == 12 then Some(InfrastructureErrorCode.AggregateNotFound)
    else if i == 13 then Some(InfrastructureErrorCode.ConcurrencyError)
    else if i == 14 then Some(InfrastructureErrorCode.DomainError)
    else if i == 15 then Some(InfrastructureErrorCode.CqrsInternalError)
    else if i == 16 then Some(InfrastructureErrorCode.ConfigurationError)
    else if i == 99 then Some(InfrastructureErrorCode.Unknown)
    else None
  }

  lemma InfrastructureIndexInverse(c: InfrastructureErrorCode)
    ensures InfrastructureOfIndex(InfrastructureIndex(c)) == Some(c)
  {
    match c
    case InternalError =>
    case ValidationFailed =>
    case NotFound =>
    case Conflict =>
    case Unauthorized =>
    case Forbidden =>
    case Gone =>
    case DatabaseError =>
    case SerializationError =>
    case AggregateNotFound =>
    case ConcurrencyError =>
    case DomainError =>
    case CqrsInternalError =>
    case ConfigurationError =>
    case Unknown =>
  }

  /** Distinct infrastructure codes have distinct display tags. */
  lemma InfrastructureTagsDistinct(a: InfrastructureErrorCode, b: InfrastructureErrorCode)
    ensures InfrastructureTag(a) == InfrastructureTag(b) ==> a == b
  {
  }

  // ============================================
  // Generic error codes (prefix 1)
  // ============================================

  datatype GenericErrorCode =
    InternalError | ValidationFailed | NotFound | Conflict | Unauthorized | Forbidden | Gone

  function GenericIndex(c: GenericErrorCode): nat
  {
    match c
    case InternalError => 0
    case ValidationFailed => 1
    case NotFound => 2
    case Conflict => 3
    case Unauthorized => 4
    case Forbidden => 5
    case Gone => 6
  }

  function GenericStatus(c: GenericErrorCode): nat
  {
    match c
    case InternalError => 500
    case ValidationFailed => 400
    case NotFound => 404
    case Conflict => 409
    case Unauthorized => 401
    case Forbidden => 403
    case Gone => 410
  }

  function GenericTag(c: GenericErrorCode): string
  {
    match c
    case InternalError => "INTERNAL_ERROR"
    case ValidationFailed => "VALIDATION_FAILED"
    case NotFound => "NOT_FOUND"
    case Conflict => "CONFLICT"
    case Unauthorized => "UNAUTHORIZED"
    case Forbidden => "FORBIDDEN"
    case Gone => "GONE"
  }

  /** The code strings of the generic catalogue: `GENERIC_` and the tag. */
  lemma GenericCodeString(c: GenericErrorCode)
    ensures CodeString(Generic(c)) == "GENERIC_" + GenericTag(c)
  {
    var u := ToUpper("generic");
    assert u == "GENERIC";
  }

  /** The catalogue row of a generic code: domain `generic`, prefix 1. */
  function Generic(c: GenericErrorCode): (r: ErrorCode)
    ensures r.domain == "generic" && r.prefix == 1
    ensures r.index == GenericIndex(c) && r.status == GenericStatus(c) && r.tag == GenericTag(c)
  {
    ErrorCode("generic", 1, GenericIndex(c), GenericStatus(c), GenericTag(c))
  }

  /** `From<StatusCode> for GenericErrorCode`. */
  function GenericFromStatus(status: nat): (c: GenericErrorCode)
    ensures status == 400 <==> c == GenericErrorCode.ValidationFailed
    ensures status == 401 <==> c == GenericErrorCode.Unauthorized
    ensures status == 403 <==> c == GenericErrorCode.Forbidden
    ensures status == 404 <==> c == GenericErrorCode.NotFound
    ensures status == 409 <==> c == GenericErrorCode.Conflict
    ensures status == 410 <==> c == GenericErrorCode.Gone
    ensures status !in {400, 401, 403, 404, 409, 410} <==> c == GenericErrorCode.InternalError
  {
    match status
    case 400 => GenericErrorCode.ValidationFailed
    case 401 => GenericErrorCode.Unauthorized
    case 403 => GenericErrorCode.Forbidden
    case 404 => GenericErrorCode.NotFound
    case 409 => GenericErrorCode.Conflict
    case 410 => GenericErrorCode.Gone
    case _ => GenericErrorCode.InternalError
  }

  /** Mapping a status to a generic code and back: every status the mapping
      names comes back unchanged; every other one becomes 500. */
  lemma GenericFromStatusRoundTrip(status: nat)
    ensures status in {400, 401, 403, 404, 409, 410} ==> GenericStatus(GenericFromStatus(status)) == status
    ensures status !in {400, 401, 403, 404, 409, 410} ==> GenericStatus(GenericFromStatus(status)) == 500
  {
  }

  // ============================================
  // Convenience constructors
  // ============================================

  function NotFoundError(message: string): (r: CqrsError)
    ensures r.code == "GENERIC_NOT_FOUND" && r.internalCode == 1002 && r.status == 404
    ensures r.domain == "generic" && r.message == message
  {
    GenericCodeString(GenericErrorCode.NotFound);
    FromCode(Generic(GenericErrorCode.NotFound), message)
  }

  function Validation(message: string): (r: CqrsError)
    ensures r.code == "GENERIC_VALIDATION_FAILED" && r.internalCode == 1001 && r.status == 400
    ensures r.message == message
  {
    GenericCodeString(GenericErrorCode.ValidationFailed);
    FromCode(Generic(GenericErrorCode.ValidationFailed), message)
  }

  function Internal(message: string): (r: CqrsError)
    ensures r.code == "GENERIC_INTERNAL_ERROR" && r.internalCode == 1000 && r.status == 500
    ensures r.message == message
  {
    GenericCodeString(GenericErrorCode.InternalError);
    FromCode(Generic(GenericErrorCode.InternalError), message)
  }

  function ConflictError(message: string): (r: CqrsError)
    ensures r.code == "GENERIC_CONFLICT" && r.internalCode == 1003 && r.status == 409
    ensures r.message == message
  {
    GenericCodeString(GenericErrorCode.Conflict);
    FromCode(Generic(GenericErrorCode.Conflict), message)
  }

  function UnauthorizedError(message: string): (r: CqrsError)
    ensures r.code == "GENERIC_UNAUTHORIZED" && r.internalCode == 1004 && r.status == 401
    ensures r.message == message
  {
    GenericCodeString(GenericErrorCode.Unauthorized);
    FromCode(Generic(GenericErrorCode.Unauthorized), message)
  }

  function ForbiddenError(message: string): (r: CqrsError)
    ensures r.code == "GENERIC_FORBIDDEN" && r.internalCode == 1005 && r.status == 403
    ensures r.message == message
  {
    GenericCodeString(GenericErrorCode.Forbidden);
    FromCode(Generic(GenericErrorCode.Forbidden), message)
  }

  /** `user_error`: a domain error, carrying the display text of its cause. */
  function UserError(cause: string): (r: CqrsError)
    ensures r.code == "INFRASTRUCTURE_DOMAIN_ERROR" && r.internalCode == 14 && r.status == 400
    ensures r.domain == "infrastructure" && r.message == cause
  {
    InfrastructureCodeString(InfrastructureErrorCode.DomainError);
    FromCode(Infrastructure(InfrastructureErrorCode.DomainError), cause)
  }

  function DatabaseErrorOf(cause: string): (r: CqrsError)
    ensures r.code == "INFRASTRUCTURE_DATABASE_ERROR" && r.internalCode == 10 && r.status == 500
    ensures r.message == cause
  {
    InfrastructureCodeString(InfrastructureErrorCode.DatabaseError);
    FromCode(Infrastructure(InfrastructureErrorCode.DatabaseError), cause)
  }

  function SerializationErrorOf(cause: string): (r: CqrsError)
    ensures r.code == "INFRASTRUCTURE_SERIALIZATION_ERROR" && r.internalCode == 11 && r.status == 500
    ensures r.message == cause
  {
    InfrastructureCodeString(InfrastructureErrorCode.SerializationError);
    FromCode(Infrastructure(InfrastructureErrorCode.SerializationError), cause)
  }

  /** `concurrency_error`: the version-conflict error of a failed commit. */
  function ConcurrencyErrorOf(): (r: CqrsError)
    ensures r.code == "INFRASTRUCTURE_CONCURRENCY_ERROR" && r.internalCode == 13 && r.status == 409
    ensures r.message == "Version conflict"
  {
    InfrastructureCodeString(InfrastructureErrorCode.ConcurrencyError);
    FromCode(Infrastructure(InfrastructureErrorCode.ConcurrencyError), "Version conflict")
  }

  lemma AggregateCodeStrings()
    ensures "INFRASTRUCTURE_" + "AGGREGATE_NOT_FOUND" == "INFRASTRUCTURE_AGGREGATE_NOT_FOUND"
    ensures "INFRASTRUCTURE_" + "CONFLICT" == "INFRASTRUCTURE_CONFLICT"
  { }

  function AggregateNotFoundOf(id: string): (r: CqrsError)
    ensures r.code == "INFRASTRUCTURE_AGGREGATE_NOT_FOUND" && r.internalCode == 12 && r.status == 404
    ensures r.message == "Aggregate '" + id + "' not found"
    ensures OccursAt(id, r.message, 11)
  {
    var m := "Aggregate '" + id + "' not found";
    OccursBetween("Aggregate '", id, "' not found");
    InfrastructureCodeString(InfrastructureErrorCode.AggregateNotFound);
    AggregateCodeStrings();
    FromCode(Infrastructure(InfrastructureErrorCode.AggregateNotFound), m)
  }

  function AggregateAlreadyExists(id: string): (r: CqrsError)
    ensures r.code == "INFRASTRUCTURE_CONFLICT" && r.internalCode == 3 && r.status == 409
    ensures r.message == "Aggregate '" + id + "' already exists"
    ensures OccursAt(id, r.message, 11)
  {
    var m := "Aggregate '" + id + "' already exists";
    OccursBetween("Aggregate '", id, "' already exists");
    InfrastructureCodeString(InfrastructureErrorCode.Conflict);
    AggregateCodeStrings();
    FromCode(Infrastructure(InfrastructureErrorCode.Conflict), m)
  }

  /** `from_status`: the generic error that the status maps to. */
  function FromStatus(status: nat, message: string): (r: CqrsError)
    ensures r.domain == "generic"
    ensures r.code == "GENERIC_" + GenericTag(GenericFromStatus(status))
    ensures r.internalCode == 1000 + GenericIndex(GenericFromStatus(status))
    ensures r.status == GenericStatus(GenericFromStatus(status))
    ensures r.message == message
  {
    GenericCodeString(GenericFromStatus(status));
    FromCode(Generic(GenericFromStatus(status)), message)
  }
}
