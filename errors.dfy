/** The error values of `src/utils/errors.ts`: the `AuryxError` class, the error
    codes of `ERROR_CODES` (plus the `PRICE_FETCH_ERROR` code the oracle and the
    client throw) and the helpers that build errors. */
module Errors {
  import opened Wrappers

  datatype ErrorCode =
    | NetworkError
    | ValidationError
    | TimeoutError
    | ProofError
    | PriceError
    | PriceFetchError

  /** The string the source uses for each code. */
  function CodeName(c: ErrorCode): string
  {
    match c
    case NetworkError => "NETWORK_ERROR"
    case ValidationError => "VALIDATION_ERROR"
    case TimeoutError => "TIMEOUT_ERROR"
    case ProofError => "PROOF_ERROR"
    case PriceError => "PRICE_ERROR"
    case PriceFetchError => "PRICE_FETCH_ERROR"
  }

  /** Anything a JavaScript `throw` can carry: an `AuryxError`, some other object
      whose `code` property is `code` (None when absent or not a string), or
      `null`/`undefined`. */
  datatype Thrown = Auryx(error: AuryxError) | Foreign(code: Option<string>) | Nullish

  /** The `details` of an error: absent, the list of supported pairs, or a cause. */
  datatype Details = NoDetails | Supported(pairs: seq<string>) | Cause(cause: Thrown)

  datatype AuryxError = AuryxError(name: string, code: ErrorCode, message: string, details: Details)

  /** `new AuryxError(code, message, details)`. */
  function NewAuryxError(code: ErrorCode, message: string, details: Details): (e: AuryxError)
    ensures e.name == "AuryxError"
    ensures e.code == code && e.message == message && e.details == details
  {
    AuryxError("AuryxError", code, message, details)
  }

  /** `error instanceof AuryxError`. */
  predicate IsAuryxError(t: Thrown)
    ensures IsAuryxError(t) <==> exists e :: t == Auryx(e)
  {
    t.Auryx?
  }

  /** The value of the `code` property of a thrown object, when it is a string. */
  function CodeProperty(t: Thrown): (c: Option<string>)
    requires !t.Nullish?
    ensures t.Auryx? ==> c == Some(CodeName(t.error.code))
    ensures t.Foreign? ==> c == t.code
  {
    match t
    case Auryx(e) => Some(CodeName(e.code))
    case Foreign(c) => c
  }

  /** `handleNetworkError(error)`: classifies a transport failure by its code and
      keeps the original error as the details. */
  function HandleNetworkError(t: Thrown): (e: AuryxError)
    requires !t.Nullish?
    ensures e.name == "AuryxError" && e.details == Cause(t)
    ensures CodeProperty(t) == Some("ECONNREFUSED") ==>
              e.code == NetworkError && e.message == "Failed to connect to the server"
    ensures CodeProperty(t) == Some("ETIMEDOUT") ==>
              e.code == TimeoutError && e.message == "Request timed out"
    ensures CodeProperty(t) != Some("ECONNREFUSED") && CodeProperty(t) != Some("ETIMEDOUT") ==>
              e.code == NetworkError && e.message == "Network error occurred"
    ensures e.code == TimeoutError <==> CodeProperty(t) == Some("ETIMEDOUT")
  {
    var code := CodeProperty(t);
    if code == Some("ECONNREFUSED") then
      NewAuryxError(NetworkError, "Failed to connect to the server", Cause(t))
    else if code == Some("ETIMEDOUT") then
      NewAuryxError(TimeoutError, "Request timed out", Cause(t))
    else
      NewAuryxError(NetworkError, "Network error occurred", Cause(t))
  }

  /** An AuryxError never carries "ECONNREFUSED" or "ETIMEDOUT" as its code, so
      network classification of an AuryxError always falls through to the generic case. */
  lemma NetworkErrorOfAuryxError(a: AuryxError)
    ensures HandleNetworkError(Auryx(a)).code == NetworkError
    ensures HandleNetworkError(Auryx(a)).message == "Network error occurred"
  {
    var name := CodeName(a.code);
    // every code name ends in "_ERROR", neither transport code does
    assert name[|name| - 6..] == "_ERROR";
    assert name != "ECONNREFUSED" && name != "ETIMEDOUT";
  }

  /** `handleValidationError(message, details)`. */
  function HandleValidationError(message: string, details: Details): (e: AuryxError)
    ensures e == NewAuryxError(ValidationError, message, details)
    ensures e.code == ValidationError && e.message == message && e.details == details
  {
    NewAuryxError(ValidationError, message, details)
  }

  /** The error both `Oracle.fetchPrice` and `AuryxClient.getPrice` throw when
      they catch `cause` while quoting `pair`. */
  function PriceFetchFailure(pair: string, cause: Thrown): (e: AuryxError)
    ensures e.code == PriceFetchError && e.name == "AuryxError"
    ensures e.message == "Failed to fetch price for " + pair
    ensures e.details == Cause(cause)
  {
    NewAuryxError(PriceFetchError, "Failed to fetch price for " + pair, Cause(cause))
  }
}
