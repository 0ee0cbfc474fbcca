/** Values that flow through the exchange-rate table: prices (Python floats, here
    NaN or an exact real), the scalars of a configuration row, and the
    exceptions the conversion operations raise. */
module Rates {

  datatype Option<+T> = None | Some(value: T)

  /** The kinds of exception the modelled operations raise. */
  datatype Error =
    | FeedNameNotValid   // get_exchange_rate("default") without a coin_gecko_api snapshot
    | SourceNotValid     // any other source name get_exchange_rate does not know
    | KeyMissing         // KeyError on a rate table lookup
    | TypeMismatch       // TypeError: a table entry that is text, not a number
    | Unconvertible      // ValueError: a rate that is NaN
    | DivisionByZero     // ZeroDivisionError: a target rate of zero

  datatype Result<+T> = Ok(value: T) | Err(error: Error)

  /** A Python float without rounding: NaN, or an exact real number. */
  datatype Rate = NaN | Val(x: real)

  /** One scalar of a configuration row or entry, kept as written: a string or a number. */
  datatype Cell = Text(text: string) | Number(rate: Rate)

  /** Float multiplication: NaN is absorbing. */
  function Mul(a: Rate, b: Rate): (r: Rate)
    ensures r.NaN? <==> a.NaN? || b.NaN?
    ensures r.Val? ==> r.x == a.x * b.x
  {
    if a.NaN? || b.NaN? then NaN else Val(a.x * b.x)
  }

  /** Python's `if price:` on an optional float: None and zero are false, NaN is true. */
  predicate Truthy(p: Option<Rate>): (b: bool)
    ensures b <==> p.Some? && (p.value.NaN? || p.value.x != 0.0)
  {
    p.Some? && p.value != Val(0.0)
  }
}
