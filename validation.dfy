/** The validators of `src/core/validation.ts`. Each is a total function of its
    argument (and, for timestamps, of the clock reading `now`): none reads or
    changes any other state. */
module Validation {
  import opened Wrappers
  import opened JsNumbers
  import opened Constants
  import opened Errors

  /** `ValidationResult`: `{isValid: true}` or `{isValid: false, error}`. */
  datatype ValidationResult = Valid | Invalid(error: string)

  /** The reference meaning of a usable price: a finite, non-negative number. */
  predicate IsUsablePrice(v: JsValue)
  {
    v.Number? && v.n.Fin? && v.n.r >= 0.0
  }

  /** `validatePriceData(price)`: the tests run in the order non-number, NaN,
      negative, non-finite, and the first that fails names the error. */
  function ValidatePriceData(price: JsValue): (r: ValidationResult)
    ensures r.Valid? <==> IsUsablePrice(price)
    ensures price.NotNumber? ==> r == Invalid("Price must be a number")
    ensures price == Number(NaN) ==> r == Invalid("Price cannot be NaN")
    ensures price == Number(NegInf) ==> r == Invalid("Price cannot be negative")
    ensures price.Number? && price.n.Fin? && price.n.r < 0.0 ==> r == Invalid("Price cannot be negative")
    ensures price == Number(PosInf) ==> r == Invalid("Price must be finite")
  {
    if price.NotNumber? then Invalid("Price must be a number")
    else if IsNaN(price.n) then Invalid("Price cannot be NaN")
    else if Less(price.n, Fin(0.0)) then Invalid("Price cannot be negative")
    else if !IsFinite(price.n) then Invalid("Price must be finite")
    else Valid
  }

  /** `validatePrice(price)`: throws a validation error carrying the message of
      `validatePriceData` (or 'Invalid price data' when that message is empty). */
  function ValidatePrice(price: JsValue): (r: Outcome<AuryxError>)
    ensures r.Pass? <==> ValidatePriceData(price).Valid?
    ensures r.Pass? <==> IsUsablePrice(price)
    ensures r.Fail? ==> r.error == HandleValidationError(ValidatePriceData(price).error, NoDetails)
    ensures r.Fail? ==> r.error.code == ValidationError
  {
    var result := ValidatePriceData(price);
    if !result.Valid? then
      Fail(HandleValidationError(if result.error != "" then result.error else "Invalid price data", NoDetails))
    else
      Pass
  }

  /** `SUPPORTED_PAIRS.includes(pair)`. */
  predicate IsSupportedPair(pair: string)
  {
    pair in SUPPORTED_PAIRS
  }

  /** `validateTradingPair(pair)`: passes exactly on the supported pairs, and
      otherwise throws a validation error listing them. */
  function ValidateTradingPair(pair: string): (r: Outcome<AuryxError>)
    ensures r.Pass? <==> pair == "SOL/USD" || pair == "BTC/USD" || pair == "ETH/USD"
    ensures r.Fail? ==> r.error == HandleValidationError("Invalid trading pair", Supported(SUPPORTED_PAIRS))
  {
    if !IsSupportedPair(pair) then
      Fail(HandleValidationError("Invalid trading pair", Supported(SUPPORTED_PAIRS)))
    else
      Pass
  }

  /** `validateConfidence(confidence)`: a NaN confidence fails none of the
      comparisons and is accepted. */
  function ValidateConfidence(confidence: JsValue): (r: ValidationResult)
    ensures r.Valid? <==>
              confidence.Number? &&
              (confidence.n.NaN? || (confidence.n.Fin? && MIN_CONFIDENCE <= confidence.n.r <= 1.0))
    ensures confidence.NotNumber? ==> r == Invalid("Confidence must be a number")
    ensures confidence.Number? && (confidence.n.PosInf? || confidence.n.NegInf? ||
                                   (confidence.n.Fin? && (confidence.n.r < 0.0 || confidence.n.r > 1.0))) ==>
              r == Invalid("Confidence must be between 0 and 1")
    ensures confidence.Number? && confidence.n.Fin? && 0.0 <= confidence.n.r < MIN_CONFIDENCE ==>
              r == Invalid("Confidence below minimum threshold (0.5)")
  {
    if confidence.NotNumber? then Invalid("Confidence must be a number")
    else if Less(confidence.n, Fin(0.0)) || Greater(confidence.n, Fin(1.0)) then
      Invalid("Confidence must be between 0 and 1")
    else if Less(confidence.n, Fin(MIN_CONFIDENCE)) then
      Invalid("Confidence below minimum threshold (0.5)")
    else Valid
  }

  /** `validateTimestamp(timestamp)` at clock reading `now`: a timestamp is
      accepted when it lies in [now - STALENESS_THRESHOLD, now], so an age of
      exactly the threshold passes; NaN fails neither comparison and passes too. */
  function ValidateTimestamp(timestamp: JsNum, now: int): (r: ValidationResult)
    ensures r.Valid? <==>
              timestamp.NaN? ||
              (timestamp.Fin? && (now - STALENESS_THRESHOLD) as real <= timestamp.r <= now as real)
    ensures timestamp == PosInf || (timestamp.Fin? && timestamp.r > now as real) ==>
              r == Invalid("Timestamp cannot be in the future")
    ensures timestamp == NegInf || (timestamp.Fin? && timestamp.r < (now - STALENESS_THRESHOLD) as real) ==>
              r == Invalid("Data is too old")
  {
    var nowNum := Fin(now as real);
    if Greater(timestamp, nowNum) then Invalid("Timestamp cannot be in the future")
    else if Greater(Minus(nowNum, timestamp), Fin(STALENESS_THRESHOLD as real)) then Invalid("Data is too old")
    else Valid
  }
}
