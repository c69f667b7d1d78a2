/** The price oracle of `src/core/oracle.ts`: a per-pair price cache with a
    freshness window, and a per-pair table of polling-timer handles kept on the
    client's behalf. Price aggregation and proof generation are not modelled:
    their outcomes (a value or a thrown error) are arguments of a fetch. */
module PriceOracle {
  import opened Wrappers
  import opened JsNumbers
  import opened Constants
  import opened Errors
  import opened Validation
  import opened Timers

  /** The attestation bytes of a fresh quote, kept opaque. */
  type Proof = seq<bv8>

  /** `{ price, timestamp }` as stored in `priceCache`. */
  datatype CacheEntry = CacheEntry(price: JsNum, timestamp: int)

  /** `PriceData`; a `proof` of None stands for `null`. */
  datatype PriceData = PriceData(price: JsNum, timestamp: int, confidence: real, proof: Option<Proof>)

  /** The cache holds only supported pairs with usable prices. */
  predicate CacheValid(cache: map<string, CacheEntry>)
  {
    forall p | p in cache :: IsSupportedPair(p) && IsUsablePrice(Number(cache[p].price))
  }

  /** An entry is fresh while its age is below the staleness threshold. */
  predicate IsFresh(cache: map<string, CacheEntry>, pair: string, now: int)
  {
    pair in cache && now - cache[pair].timestamp < STALENESS_THRESHOLD
  }

  /** `getCachedPrice(pair)` at clock reading `now`: a fresh entry, quoted
      without a proof. */
  function GetCachedPrice(cache: map<string, CacheEntry>, pair: string, now: int): (r: Option<PriceData>)
    ensures r.Some? <==> IsFresh(cache, pair, now)
    ensures r.Some? ==> r.value.price == cache[pair].price && r.value.timestamp == cache[pair].timestamp
    ensures r.Some? ==> r.value.confidence == QUOTE_CONFIDENCE && r.value.proof == None
  {
    if pair in cache then
      var cached := cache[pair];
      if now - cached.timestamp < STALENESS_THRESHOLD then
        Some(PriceData(cached.price, cached.timestamp, QUOTE_CONFIDENCE, None))
      else None
    else None
  }

  /** What a fetch returns or throws, and the cache it leaves. */
  datatype FetchResult = FetchResult(outcome: Result<PriceData, AuryxError>, cache: map<string, CacheEntry>)

  /** `fetchPrice(pair)` at clock reading `now`, given what the aggregator
      returns or throws (`aggregated`) and what the proof generator returns or
      throws (`proof`). The pair check sits outside the `try`, so its error is
      thrown unwrapped; everything inside is wrapped as PRICE_FETCH_ERROR. */
  function Fetch(cache: map<string, CacheEntry>, pair: string, now: int,
                 aggregated: Result<JsValue, Thrown>, proof: Result<Proof, Thrown>): (r: FetchResult)
    // an unsupported pair fails fast, before the cache is consulted
    ensures !IsSupportedPair(pair) ==>
              r.outcome == Err(HandleValidationError("Invalid trading pair", Supported(SUPPORTED_PAIRS))) &&
              r.cache == cache
    // a hit returns the entry and touches nothing
    ensures IsSupportedPair(pair) && IsFresh(cache, pair, now) ==>
              r.outcome == Ok(PriceData(cache[pair].price, cache[pair].timestamp, QUOTE_CONFIDENCE, None)) &&
              r.cache == cache
    // a failing aggregator or an unusable price: PRICE_FETCH_ERROR, cache unchanged
    ensures IsSupportedPair(pair) && !IsFresh(cache, pair, now) && aggregated.Err? ==>
              r.outcome == Err(PriceFetchFailure(pair, aggregated.error)) && r.cache == cache
    ensures IsSupportedPair(pair) && !IsFresh(cache, pair, now) && aggregated.Ok? &&
            !IsUsablePrice(aggregated.value) ==>
              r.outcome == Err(PriceFetchFailure(pair, Auryx(ValidatePrice(aggregated.value).error))) &&
              r.outcome.error.details.cause.error.code == ValidationError &&
              r.cache == cache
    // a usable price is cached at `now` before the proof is generated
    ensures IsSupportedPair(pair) && !IsFresh(cache, pair, now) && aggregated.Ok? &&
            IsUsablePrice(aggregated.value) ==>
              r.cache == cache[pair := CacheEntry(aggregated.value.n, now)] &&
              r.outcome == if proof.Ok? then Ok(PriceData(aggregated.value.n, now, QUOTE_CONFIDENCE, Some(proof.value)))
                           else Err(PriceFetchFailure(pair, proof.error))
    // whatever happens, no other pair's entry changes and no entry is deleted
    ensures r.cache - {pair} == cache - {pair}
    ensures cache.Keys <= r.cache.Keys
    // every error of a supported pair is a PRICE_FETCH_ERROR
    ensures r.outcome.Err? ==> (r.outcome.error.code == PriceFetchError <==> IsSupportedPair(pair))
    // a quote is what the cache now holds for the pair; a quote with a proof is fresh
    ensures r.outcome.Ok? ==>
              pair in r.cache && r.cache[pair] == CacheEntry(r.outcome.value.price, r.outcome.value.timestamp) &&
              r.outcome.value.confidence == QUOTE_CONFIDENCE
    ensures r.outcome.Ok? && r.outcome.value.proof.Some? ==> r.outcome.value.timestamp == now
    // the cache keeps only usable prices of supported pairs, and so do quotes
    ensures CacheValid(cache) ==> CacheValid(r.cache)
    ensures CacheValid(cache) && r.outcome.Ok? ==> IsUsablePrice(Number(r.outcome.value.price))
  {
    match ValidateTradingPair(pair)
    case Fail(e) => FetchResult(Err(e), cache)
    case Pass =>
      match GetCachedPrice(cache, pair, now)
      case Some(quote) => FetchResult(Ok(quote), cache)
      case None =>
        match aggregated
        case Err(t) => FetchResult(Err(PriceFetchFailure(pair, t)), cache)
        case Ok(price) =>
          match ValidatePrice(price)
          case Fail(e) => FetchResult(Err(PriceFetchFailure(pair, Auryx(e))), cache)
          case Pass =>
            var written := cache[pair := CacheEntry(price.n, now)];
            match proof
            case Err(t) => FetchResult(Err(PriceFetchFailure(pair, t)), written)
            case Ok(bytes) => FetchResult(Ok(PriceData(price.n, now, QUOTE_CONFIDENCE, Some(bytes))), written)
  }

  /** Two quotes of a pair less than the threshold apart: the second is a cache
      hit carrying the first one's price and timestamp, without a proof. */
  lemma FetchAgainWithinThreshold(cache: map<string, CacheEntry>, pair: string, now1: int, now2: int,
                                  agg1: Result<JsValue, Thrown>, proof1: Result<Proof, Thrown>,
                                  agg2: Result<JsValue, Thrown>, proof2: Result<Proof, Thrown>)
    requires Fetch(cache, pair, now1, agg1, proof1).outcome.Ok?
    requires now2 - Fetch(cache, pair, now1, agg1, proof1).outcome.value.timestamp < STALENESS_THRESHOLD
    ensures var first := Fetch(cache, pair, now1, agg1, proof1);
            var second := Fetch(first.cache, pair, now2, agg2, proof2);
            second.cache == first.cache &&
            second.outcome == Ok(PriceData(first.outcome.value.price, first.outcome.value.timestamp,
                                           QUOTE_CONFIDENCE, None))
  {
    var first := Fetch(cache, pair, now1, agg1, proof1);
    assert IsSupportedPair(pair);
    assert IsFresh(first.cache, pair, now2);
  }

  /** A successful quote taken once the threshold has passed since the last
      quote is a fresh observation with a strictly later timestamp. */
  lemma FetchAfterThreshold(cache: map<string, CacheEntry>, pair: string, now1: int, now2: int,
                            agg1: Result<JsValue, Thrown>, proof1: Result<Proof, Thrown>,
                            agg2: Result<JsValue, Thrown>, proof2: Result<Proof, Thrown>)
    requires Fetch(cache, pair, now1, agg1, proof1).outcome.Ok?
    requires now2 - Fetch(cache, pair, now1, agg1, proof1).outcome.value.timestamp >= STALENESS_THRESHOLD
    requires Fetch(Fetch(cache, pair, now1, agg1, proof1).cache, pair, now2, agg2, proof2).outcome.Ok?
    ensures var first := Fetch(cache, pair, now1, agg1, proof1);
            var second := Fetch(first.cache, pair, now2, agg2, proof2);
            second.outcome.value.timestamp == now2 > first.outcome.value.timestamp &&
            second.outcome.value.proof.Some?
  {
    var first := Fetch(cache, pair, now1, agg1, proof1);
    assert !IsFresh(first.cache, pair, now2);
  }

  class Oracle {
    var priceCache: map<string, CacheEntry>
    var updateIntervals: map<string, Handle>
    /** The runtime's interval timers, shared with the client. */
    const timers: IntervalTimers

    predicate Valid()
      reads this, timers
    {
      CacheValid(priceCache) && timers.Valid()
    }

    constructor (timers: IntervalTimers)
      requires timers.Valid()
      ensures Valid() && this.timers == timers
      ensures priceCache == map[] && updateIntervals == map[]
    {
      this.timers := timers;
      priceCache := map[];
      updateIntervals := map[];
    }

    /** `fetchPrice(pair)`. */
    method FetchPrice(pair: string, now: int, aggregated: Result<JsValue, Thrown>, proof: Result<Proof, Thrown>)
      returns (r: Result<PriceData, AuryxError>)
      requires Valid()
      modifies this`priceCache
      ensures Valid()
      ensures r == Fetch(old(priceCache), pair, now, aggregated, proof).outcome
      ensures priceCache == Fetch(old(priceCache), pair, now, aggregated, proof).cache
    {
      var check := ValidateTradingPair(pair);
      if check.Fail? {
        return Err(check.error);
      }
      var cached := GetCachedPrice(priceCache, pair, now);
      if cached.Some? {
        return Ok(cached.value);
      }
      if aggregated.Err? {
        return Err(PriceFetchFailure(pair, aggregated.error));
      }
      var price := aggregated.value;
      var priceCheck := ValidatePrice(price);
      if priceCheck.Fail? {
        return Err(PriceFetchFailure(pair, Auryx(priceCheck.error)));
      }
      CachePrice(pair, price.n, now);
      if proof.Err? {
        return Err(PriceFetchFailure(pair, proof.error));
      }
      return Ok(PriceData(price.n, now, QUOTE_CONFIDENCE, Some(proof.value)));
    }

    /** `cachePrice(pair, price)` at clock reading `now`. */
    method CachePrice(pair: string, price: JsNum, now: int)
      modifies this`priceCache
      ensures priceCache == old(priceCache)[pair := CacheEntry(price, now)]
    {
      priceCache := priceCache[pair := CacheEntry(price, now)];
    }

    /** `setUpdateInterval(pair, interval)`. */
    method SetUpdateInterval(pair: string, interval: Handle)
      modifies this`updateIntervals
      ensures GetUpdateInterval(pair) == Some(interval)
      ensures forall q | q != pair :: GetUpdateInterval(q) == old(GetUpdateInterval(q))
      ensures updateIntervals == old(updateIntervals)[pair := interval]
    {
      updateIntervals := updateIntervals[pair := interval];
    }

    /** `getUpdateInterval(pair)`; None stands for `undefined`. */
    function GetUpdateInterval(pair: string): (r: Option<Handle>)
      reads this
      ensures r.Some? <==> pair in updateIntervals
      ensures r.Some? ==> r.value == updateIntervals[pair]
    {
      if pair in updateIntervals then Some(updateIntervals[pair]) else None
    }

    /** `clearUpdateInterval(pair)`. */
    method ClearUpdateInterval(pair: string)
      modifies this`updateIntervals
      ensures GetUpdateInterval(pair) == None
      ensures forall q | q != pair :: GetUpdateInterval(q) == old(GetUpdateInterval(q))
      ensures updateIntervals == old(updateIntervals) - {pair}
    {
      updateIntervals := updateIntervals - {pair};
    }

    /** `cleanup()`: stop every stored timer, then empty both tables. */
    method Cleanup()
      requires Valid()
      modifies this`priceCache, this`updateIntervals, timers
      ensures Valid()
      ensures priceCache == map[] && updateIntervals == map[]
      ensures timers.active == old(timers.active) - old(updateIntervals).Values
    {
      var pending := updateIntervals.Values;
      while pending != {}
        invariant timers.Valid() && pending <= old(updateIntervals).Values
        invariant timers.active == old(timers.active) - (old(updateIntervals).Values - pending)
        invariant priceCache == old(priceCache) && updateIntervals == old(updateIntervals)
        decreases pending
      {
        var h :| h in pending;
        timers.Clear(h);
        pending := pending - {h};
      }
      updateIntervals := map[];
      priceCache := map[];
    }
  }
}
