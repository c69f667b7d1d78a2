/** The constants of `src/utils/constants.ts` that the modelled core reads. */
module Constants {

  /** NETWORK_CONSTANTS.RECONNECT_INTERVAL: base backoff delay in milliseconds. */
  const RECONNECT_INTERVAL: nat := 1000
  /** NETWORK_CONSTANTS.MAX_RECONNECT_ATTEMPTS. */
  const MAX_RECONNECT_ATTEMPTS: nat := 5

  /** PROOF_CONSTANTS.MIN_CONFIDENCE. */
  const MIN_CONFIDENCE: real := 0.5
  /** PROOF_CONSTANTS.STALENESS_THRESHOLD: maximum age of a cached price, in milliseconds. */
  const STALENESS_THRESHOLD: int := 60000

  /** DEFAULT_CONFIG.UPDATE_INTERVAL: polling period of a subscribed pair, in milliseconds. */
  const UPDATE_INTERVAL: nat := 5000

  /** SUPPORTED_PAIRS, in declaration order. */
  const SUPPORTED_PAIRS: seq<string> := ["SOL/USD", "BTC/USD", "ETH/USD"]

  /** The confidence the oracle attaches to every quote, cached or fresh. */
  const QUOTE_CONFIDENCE: real := 0.99
}
