/** Value wrappers shared by the services of the trading bot. */
module Common {

  /** A value that may be absent: JavaScript's `null` / `undefined`. */
  datatype Option<+T> = None | Some(value: T)

  /** The result of an operation that may stop the process: `Fatal` stands for `process.exit(1)`. */
  datatype Outcome<+T> = Ok(value: T) | Fatal

  /** The order sides the exchange reports. */
  datatype Side = Buy | Sell
}
