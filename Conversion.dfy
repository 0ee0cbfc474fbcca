/** The query operations of the rate table (hummingbot/core/utils/exchange_rate_conversion.py):
    `get_exchange_rate` (lines 116-130) chooses a table by source name, and
    `adjust_token_rate` (lines 144-151) and `convert_token_value` (lines 165-176)
    look assets up in it.  All three read the state and change nothing; starting
    the refresh loop is left to the class. */
module Conversion {
  import opened Rates
  import opened CaseFold
  import opened Dicts
  import opened ConfigResolver

  /** `DEFAULT_DATA_FEED_NAME`, the snapshot that the source "default" selects. */
  const DefaultDataFeedName: string := "coin_gecko_api"

  /** A feed snapshot as a rate table: every price becomes a numeric cell. */
  function Lifted(snap: map<string, Rate>): (t: map<string, Cell>)
    ensures t.Keys == snap.Keys
    ensures forall k :: k in snap ==> t[k] == Number(snap[k])
  {
    map k | k in snap :: Number(snap[k])
  }

  /** `get_exchange_rate(source)`, with `source` None for the default argument: "default"
      picks the coin_gecko_api snapshot (an error when there is none), then a source naming
      a snapshot picks it, then "config" picks the configured table; anything else is an error. */
  function ExchangeRateTable(snaps: map<string, map<string, Rate>>, rates: map<string, Cell>, source: Option<string>)
    : (r: Result<map<string, Cell>>)
    ensures r.Err? <==> (source.None?
      || (source.value == "default" && DefaultDataFeedName !in snaps)
      || (source.value != "default" && source.value !in snaps && source.value != "config"))
    ensures r.Err? && source.Some? && source.value == "default" ==> r.error == FeedNameNotValid
    ensures r.Err? && (source.None? || source.value != "default") ==> r.error == SourceNotValid
    ensures r.Ok? && source.value == "default" ==> r.value == Lifted(snaps[DefaultDataFeedName])
    ensures r.Ok? && source.value != "default" && source.value in snaps ==> r.value == Lifted(snaps[source.value])
    ensures r.Ok? && source.value != "default" && source.value !in snaps ==> r.value == rates
  {
    if source == Some("default") then
      if DefaultDataFeedName in snaps then Ok(Lifted(snaps[DefaultDataFeedName])) else Err(FeedNameNotValid)
    else if source.Some? && source.value in snaps then Ok(Lifted(snaps[source.value]))
    else if source == Some("config") then Ok(rates)
    else Err(SourceNotValid)
  }

  /** `adjust_token_rate(asset_name, price, source)` after the refresh loop is started: the
      price is scaled by the chosen table's rate for the upper-cased asset when that asset
      is in `conversion_required` and in the configured table, and passed through otherwise. */
  function AdjustTokenRate(snaps: map<string, map<string, Rate>>, rates: map<string, Cell>,
                           cr: Dict<SourceConfig>, asset: string, price: Rate, source: Option<string>)
    : (r: Result<Rate>)
    ensures ExchangeRateTable(snaps, rates, source).Err? ==> r == Err(ExchangeRateTable(snaps, rates, source).error)
    ensures ExchangeRateTable(snaps, rates, source).Ok? && (Upper(asset) !in cr.items || Upper(asset) !in rates) ==>
      r == Ok(price)
    ensures r.Ok? && r.value != price ==> Upper(asset) in cr.items && Upper(asset) in rates
    ensures r.Err? && ExchangeRateTable(snaps, rates, source).Ok? ==>
      Upper(asset) in cr.items && Upper(asset) in rates &&
      (r.error == KeyMissing <==> Upper(asset) !in ExchangeRateTable(snaps, rates, source).value) &&
      (r.error == TypeMismatch <==> Upper(asset) in ExchangeRateTable(snaps, rates, source).value)
    ensures var t := ExchangeRateTable(snaps, rates, source);
      (t.Ok? && Upper(asset) in cr.items && Upper(asset) in rates && Upper(asset) in t.value &&
       t.value[Upper(asset)].Number?) ==> r == Ok(Mul(t.value[Upper(asset)].rate, price))
  {
    var a := Upper(asset);
    var t := ExchangeRateTable(snaps, rates, source);
    if t.Err? then Err(t.error)
    else if a in cr.items && a in rates then
      if a !in t.value then Err(KeyMissing)
      else if t.value[a].Text? then Err(TypeMismatch)
      else Ok(Mul(t.value[a].rate, price))
    else Ok(price)
  }

  /** `math.isnan` on a table cell, or the TypeError it raises on a string. */
  function IsNaN(c: Cell): (r: Result<bool>)
    ensures r.Err? <==> c.Text?
    ensures r.Ok? ==> (r.value <==> c == Number(NaN))
  {
    if c.Text? then Err(TypeMismatch) else Ok(c.rate.NaN?)
  }

  /** `exchange_rate.get(currency, NaN)`. */
  function RateOf(t: map<string, Cell>, currency: string): (c: Cell)
    ensures currency in t ==> c == t[currency]
    ensures currency !in t ==> c == Number(NaN)
  {
    if currency in t then t[currency] else Number(NaN)
  }

  /** The upper-cased pair is ETH to WETH or WETH to ETH. */
  predicate EthWethPair(from: string, to: string)
  {
    (from == "ETH" && to == "WETH") || (from == "WETH" && to == "ETH")
  }

  /** Real division. */
  function Div(n: real, d: real): (q: real)
    requires d != 0.0
    ensures q * d == n
  {
    n / d
  }

  /** `amount * from_rate / to_rate` on floats: dividing by zero raises, NaN is absorbing. */
  function Quotient(amount: Rate, fromRate: real, toRate: real): (r: Result<Rate>)
    ensures r.Err? <==> toRate == 0.0
    ensures r.Err? ==> r.error == DivisionByZero
    ensures r.Ok? && amount.NaN? ==> r.value == NaN
    ensures r.Ok? && amount.Val? ==> r.value.Val? && r.value.x * toRate == amount.x * fromRate
  {
    if toRate == 0.0 then Err(DivisionByZero)
    else if amount.NaN? then Ok(NaN)
    else Ok(Val(Div(amount.x * fromRate, toRate)))
  }

  /** `convert_token_value(amount, from_currency, to_currency, source)` after the refresh
      loop is started: the table error first; then ETH and WETH at par; then the NaN check
      on the source rate before the target rate (a string rate raises a TypeError there);
      then the quotient. */
  function ConvertTokenValue(snaps: map<string, map<string, Rate>>, rates: map<string, Cell>,
                             amount: Rate, from: string, to: string, source: Option<string>)
    : (r: Result<Rate>)
    ensures ExchangeRateTable(snaps, rates, source).Err? ==> r == Err(ExchangeRateTable(snaps, rates, source).error)
    ensures ExchangeRateTable(snaps, rates, source).Ok? && EthWethPair(Upper(from), Upper(to)) ==> r == Ok(amount)
    ensures r.Ok? && !EthWethPair(Upper(from), Upper(to)) ==>
      var t := ExchangeRateTable(snaps, rates, source).value;
      Upper(from) in t && Upper(to) in t && t[Upper(from)].Number? && t[Upper(to)].Number? &&
      t[Upper(from)].rate.Val? && t[Upper(to)].rate.Val? && t[Upper(to)].rate.x != 0.0
  {
    var t := ExchangeRateTable(snaps, rates, source);
    if t.Err? then Err(t.error)
    else
      var f, u := Upper(from), Upper(to);
      if EthWethPair(f, u) then Ok(amount)
      else
        var fr, tr := RateOf(t.value, f), RateOf(t.value, u);
        var fn := IsNaN(fr);
        if fn.Err? then Err(fn.error)
        else if fn.value then Err(Unconvertible)
        else
          var tn := IsNaN(tr);
          if tn.Err? then Err(tn.error)
          else if tn.value then Err(Unconvertible)
          else Quotient(amount, fr.rate.x, tr.rate.x)
  }

  // ---------------------------------------------------------------------------
  // Properties of the queries

  /** `get_exchange_rate()` with the default argument raises. */
  lemma NoSourceFails(snaps: map<string, map<string, Rate>>, rates: map<string, Cell>)
    ensures ExchangeRateTable(snaps, rates, None) == Err(SourceNotValid)
  {
  }

  /** Hence both conversions raise without a source, ETH and WETH included. */
  lemma ConversionsNeedSource(snaps: map<string, map<string, Rate>>, rates: map<string, Cell>,
                              cr: Dict<SourceConfig>, amount: Rate, from: string, to: string)
    ensures AdjustTokenRate(snaps, rates, cr, from, amount, None) == Err(SourceNotValid)
    ensures ConvertTokenValue(snaps, rates, amount, from, to, None) == Err(SourceNotValid)
  {
    NoSourceFails(snaps, rates);
  }

  /** A snapshot named like a source keyword: "default" always means the coin_gecko_api
      snapshot, while a snapshot named "config" hides the configured table. */
  lemma SnapshotShadowsConfig(snaps: map<string, map<string, Rate>>, rates: map<string, Cell>)
    requires "config" in snaps
    ensures ExchangeRateTable(snaps, rates, Some("config")) == Ok(Lifted(snaps["config"]))
  {
  }

  /** Asset names are case-insensitive in `adjust_token_rate`. */
  lemma AdjustIgnoresCase(snaps: map<string, map<string, Rate>>, rates: map<string, Cell>,
                          cr: Dict<SourceConfig>, asset: string, price: Rate, source: Option<string>)
    ensures AdjustTokenRate(snaps, rates, cr, asset, price, source) ==
            AdjustTokenRate(snaps, rates, cr, Upper(asset), price, source)
  {
    UpperIdempotent(asset);
  }

  /** Currency names are case-insensitive in `convert_token_value`. */
  lemma ConvertIgnoresCase(snaps: map<string, map<string, Rate>>, rates: map<string, Cell>,
                           amount: Rate, from: string, to: string, source: Option<string>)
    ensures ConvertTokenValue(snaps, rates, amount, from, to, source) ==
            ConvertTokenValue(snaps, rates, amount, Upper(from), Upper(to), source)
  {
    UpperIdempotent(from);
    UpperIdempotent(to);
  }

  /** With the configured table, an asset needing conversion is scaled by its configured
      numeric rate. */
  lemma AdjustByConfiguredRate(snaps: map<string, map<string, Rate>>, rates: map<string, Cell>,
                               cr: Dict<SourceConfig>, asset: string, price: Rate)
    requires "config" !in snaps
    requires Upper(asset) in cr.items && Upper(asset) in rates && rates[Upper(asset)].Number?
    ensures AdjustTokenRate(snaps, rates, cr, asset, price, Some("config")) == Ok(Mul(rates[Upper(asset)].rate, price))
  {
  }

  /** A missing or NaN source rate stops a conversion that is not ETH/WETH, whatever the
      target rate. */
  lemma NaNSourceRateFails(snaps: map<string, map<string, Rate>>, rates: map<string, Cell>,
                           amount: Rate, from: string, to: string, source: Option<string>)
    requires ExchangeRateTable(snaps, rates, source).Ok? && !EthWethPair(Upper(from), Upper(to))
    requires var t := ExchangeRateTable(snaps, rates, source).value;
      Upper(from) !in t || t[Upper(from)] == Number(NaN)
    ensures ConvertTokenValue(snaps, rates, amount, from, to, source) == Err(Unconvertible)
  {
  }

  /** A missing or NaN target rate stops a conversion whose source rate is a number. */
  lemma NaNTargetRateFails(snaps: map<string, map<string, Rate>>, rates: map<string, Cell>,
                           amount: Rate, from: string, to: string, source: Option<string>)
    requires ExchangeRateTable(snaps, rates, source).Ok? && !EthWethPair(Upper(from), Upper(to))
    requires var t := ExchangeRateTable(snaps, rates, source).value;
      Upper(from) in t && t[Upper(from)].Number? && t[Upper(from)].rate.Val? &&
      (Upper(to) !in t || t[Upper(to)] == Number(NaN))
    ensures ConvertTokenValue(snaps, rates, amount, from, to, source) == Err(Unconvertible)
  {
  }

  /** With numeric non-zero rates, converting from A to B multiplies by A's rate over B's:
      the result times B's rate is the amount times A's rate. */
  lemma ConvertByRates(snaps: map<string, map<string, Rate>>, rates: map<string, Cell>,
                       amount: Rate, from: string, to: string, source: Option<string>)
    requires amount.Val?
    requires ExchangeRateTable(snaps, rates, source).Ok? && !EthWethPair(Upper(from), Upper(to))
    requires var t := ExchangeRateTable(snaps, rates, source).value;
      Upper(from) in t && Upper(to) in t &&
      t[Upper(from)].Number? && t[Upper(from)].rate.Val? &&
      t[Upper(to)].Number? && t[Upper(to)].rate.Val? && t[Upper(to)].rate.x != 0.0
    ensures var t := ExchangeRateTable(snaps, rates, source).value;
      var r := ConvertTokenValue(snaps, rates, amount, from, to, source);
      r.Ok? && r.value.Val? && r.value.x * t[Upper(to)].rate.x == amount.x * t[Upper(from)].rate.x
  {
    var t := ExchangeRateTable(snaps, rates, source).value;
    var fr, tr := t[Upper(from)], t[Upper(to)];
    assert RateOf(t, Upper(from)) == fr && RateOf(t, Upper(to)) == tr;
    assert IsNaN(fr) == Ok(false) && IsNaN(tr) == Ok(false);
  }

  /** Cancelling a non-zero factor. */
  lemma Cancel(x: real, y: real, f: real)
    requires f != 0.0 && x * f == y * f
    ensures x == y
  {
    assert (x - y) * f == 0.0;
  }

  /** Converting A to B and back gives the amount back when both rates are non-zero numbers. */
  lemma ConvertRoundTrip(snaps: map<string, map<string, Rate>>, rates: map<string, Cell>,
                         amount: Rate, a: string, b: string, source: Option<string>)
    requires amount.Val? && ExchangeRateTable(snaps, rates, source).Ok?
    requires var t := ExchangeRateTable(snaps, rates, source).value;
      Upper(a) in t && Upper(b) in t &&
      t[Upper(a)].Number? && t[Upper(a)].rate.Val? && t[Upper(a)].rate.x != 0.0 &&
      t[Upper(b)].Number? && t[Upper(b)].rate.Val? && t[Upper(b)].rate.x != 0.0
    ensures var there := ConvertTokenValue(snaps, rates, amount, a, b, source);
      there.Ok? && ConvertTokenValue(snaps, rates, there.value, b, a, source) == Ok(amount)
  {
    var t := ExchangeRateTable(snaps, rates, source).value;
    if !EthWethPair(Upper(a), Upper(b)) {
      var fa, fb := t[Upper(a)].rate.x, t[Upper(b)].rate.x;
      ConvertByRates(snaps, rates, amount, a, b, source);
      var there := ConvertTokenValue(snaps, rates, amount, a, b, source).value;
      ConvertByRates(snaps, rates, there, b, a, source);
      var back := ConvertTokenValue(snaps, rates, there, b, a, source).value;
      Cancel(back.x, amount.x, fa);
    }
  }
}
