/** The class `ExchangeRateConversion` (hummingbot/core/utils/exchange_rate_conversion.py:19-242).
    The object here is the shared instance that `get_instance` returns.  Its fields are
    the attributes the source updates: the class attributes, and `_started` and the two
    warning flags, which `start`, `stop` and the refresh methods assign through `self`
    on that instance.  `hasInstance` records whether the shared instance exists.  The global configuration map and the data
    feeds are outside the class: their values come in as parameters. */
module ExchangeRates {
  import opened Rates
  import opened CaseFold
  import opened Dicts
  import opened ConfigResolver
  import opened RateCache
  import Conversion

  /** The feeds of `_data_feeds` at the moment of a refresh: their names with the price
      dictionaries they hold then. */
  function Feeds(names: seq<string>, prices: seq<map<string, Rate>>): (fs: seq<Feed>)
    requires |names| == |prices|
    ensures |fs| == |names|
    ensures forall i :: 0 <= i < |fs| ==> fs[i] == Feed(names[i], prices[i])
  {
    seq(|names|, i requires 0 <= i < |names| => Feed(names[i], prices[i]))
  }

  class ExchangeRateConversion {
    /** `_erc_shared_instance is not None`. */
    var hasInstance: bool
    /** `_exchange_rate_config_override`. */
    var configOverride: Option<Override>
    /** `_data_feeds_override`, by feed name. */
    var dataFeedsOverride: Option<seq<string>>
    /** `_data_feeds`, by feed name. */
    var dataFeeds: seq<string>
    /** `_exchange_rate_config`. */
    var exchangeRateConfig: RateConfig
    /** `_exchange_rate`: the configured rate table. */
    var exchangeRate: map<string, Cell>
    /** `_all_data_feed_exchange_rate`: the latest price dictionary of each feed, by name. */
    var allDataFeedExchangeRate: map<string, map<string, Rate>>
    /** `_started`. */
    var started: bool
    /** `_show_update_exchange_rates_from_data_feeds_errors`. */
    var showUpdateErrors: bool
    /** `_show_wait_till_ready_errors`. */
    var showWaitTillReadyErrors: bool

    /** The configuration is always a resolved one. */
    predicate Valid()
      reads this
    {
      Resolved(exchangeRateConfig)
    }

    /** The initial values of the class attributes (lines 22-34). */
    constructor ()
      ensures Valid()
      ensures !hasInstance && configOverride.None? && dataFeedsOverride.None? && dataFeeds == []
      ensures exchangeRateConfig == EmptyConfig() && exchangeRate == map[] && allDataFeedExchangeRate == map[]
      ensures !started && showUpdateErrors && showWaitTillReadyErrors
    {
      hasInstance := false;
      configOverride := None;
      dataFeedsOverride := None;
      dataFeeds := [];
      exchangeRateConfig := EmptyConfig();
      exchangeRate := map[];
      allDataFeedExchangeRate := map[];
      started := false;
      showUpdateErrors := true;
      showWaitTillReadyErrors := true;
    }

    /** `init_config` (lines 78-106), given the two raw lists of the global configuration
        map and the names of the built-in feeds.  The feeds are always assigned; the
        configuration only when it resolves; the rate table only when, in addition, every
        entry has a "default".  A caught exception leaves the later fields as they were. */
    method InitConfig(s: Settings, builtin: seq<string>)
      requires Valid()
      modifies this`dataFeeds, this`exchangeRateConfig, this`exchangeRate
      ensures Valid()
      ensures dataFeeds == if dataFeedsOverride.Some? then dataFeedsOverride.value else builtin
      ensures var c := ResolveConfig(s, configOverride);
        && exchangeRateConfig == (if c.Some? then c.value else old(exchangeRateConfig))
        && exchangeRate ==
             (if c.Some? && DefaultRates(c.value.globalConfig).Some? then DefaultRates(c.value.globalConfig).value
              else old(exchangeRate))
    {
      if dataFeedsOverride.None? {
        dataFeeds := builtin;
      } else {
        dataFeeds := dataFeedsOverride.value;
      }
      var c := ResolveConfig(s, configOverride);
      ApplyConfig(c);
    }

    /** Lines 99-103 of `init_config` once the configuration is resolved, or nothing when
        resolving it raised. */
    method ApplyConfig(c: Option<RateConfig>)
      requires c.Some? ==> Resolved(c.value)
      requires Valid()
      modifies this`exchangeRateConfig, this`exchangeRate
      ensures Valid()
      ensures exchangeRateConfig == if c.Some? then c.value else old(exchangeRateConfig)
      ensures exchangeRate ==
        if c.Some? && DefaultRates(c.value.globalConfig).Some? then DefaultRates(c.value.globalConfig).value
        else old(exchangeRate)
    {
      if c.Some? {
        exchangeRateConfig := c.value;
        var d := DefaultRates(c.value.globalConfig);
        if d.Some? {
          exchangeRate := d.value;
        }
      }
    }

    /** `set_global_exchange_rate_config` (lines 56-62): the override becomes `config`,
        then the configuration is re-resolved. */
    method SetGlobalExchangeRateConfig(config: Override, s: Settings, builtin: seq<string>)
      requires Valid()
      modifies this`configOverride, this`dataFeeds, this`exchangeRateConfig, this`exchangeRate
      ensures Valid()
      ensures configOverride == Some(config)
      ensures dataFeeds == if dataFeedsOverride.Some? then dataFeedsOverride.value else builtin
      ensures var c := ResolveConfig(s, Some(config));
        && c.Some?
        && exchangeRateConfig == c.value
        && exchangeRate ==
             (if DefaultRates(c.value.globalConfig).Some? then DefaultRates(c.value.globalConfig).value
              else old(exchangeRate))
    {
      configOverride := Some(config);
      InitConfig(s, builtin);
    }

    /** `set_data_feeds` (lines 65-71): the feed override becomes `feeds`, then the
        configuration is re-resolved. */
    method SetDataFeeds(feeds: seq<string>, s: Settings, builtin: seq<string>)
      requires Valid()
      modifies this`dataFeedsOverride, this`dataFeeds, this`exchangeRateConfig, this`exchangeRate
      ensures Valid()
      ensures dataFeedsOverride == Some(feeds) && dataFeeds == feeds
      ensures var c := ResolveConfig(s, configOverride);
        && exchangeRateConfig == (if c.Some? then c.value else old(exchangeRateConfig))
        && exchangeRate ==
             (if c.Some? && DefaultRates(c.value.globalConfig).Some? then DefaultRates(c.value.globalConfig).value
              else old(exchangeRate))
    {
      dataFeedsOverride := Some(feeds);
      InitConfig(s, builtin);
    }

    /** `get_instance` (lines 41-47): the first call creates the shared instance, whose
        constructor runs `init_config`; a later call runs `init_config` again while
        `global_config` is still empty, and otherwise changes nothing. */
    method GetInstance(s: Settings, builtin: seq<string>)
      requires Valid()
      modifies this`hasInstance, this`dataFeeds, this`exchangeRateConfig, this`exchangeRate
      ensures Valid() && hasInstance
      ensures !old(hasInstance) || old(exchangeRateConfig.globalConfig.items) == map[] ==>
        && dataFeeds == (if dataFeedsOverride.Some? then dataFeedsOverride.value else builtin)
        && var c := ResolveConfig(s, configOverride);
        && exchangeRateConfig == (if c.Some? then c.value else old(exchangeRateConfig))
        && exchangeRate ==
             (if c.Some? && DefaultRates(c.value.globalConfig).Some? then DefaultRates(c.value.globalConfig).value
              else old(exchangeRate))
      ensures old(hasInstance) && old(exchangeRateConfig.globalConfig.items) != map[] ==>
        dataFeeds == old(dataFeeds) && exchangeRateConfig == old(exchangeRateConfig) && exchangeRate == old(exchangeRate)
    {
      if !hasInstance {
        hasInstance := true;
        InitConfig(s, builtin);
      } else if exchangeRateConfig.globalConfig.items == map[] {
        InitConfig(s, builtin);
      }
    }

    /** `update_exchange_rates_from_data_feeds` (lines 178-205), given the price dictionary
        each feed of `_data_feeds` holds at that moment.  The snapshots of all feeds are
        stored first; then each feed's pass over `global_config` updates the rate table;
        `ok` is false when an exception escapes, which happens exactly when there is a
        feed and some entry's source is missing or not a string.  The error flag is
        cleared after a completed refresh in which some lookup missed, and never set. */
    method UpdateExchangeRatesFromDataFeeds(prices: seq<map<string, Rate>>) returns (ok: bool)
      requires Valid() && |prices| == |dataFeeds|
      modifies this`allDataFeedExchangeRate, this`exchangeRate, this`showUpdateErrors
      ensures var feeds := Feeds(dataFeeds, prices);
        var r := ScanFeeds(Progress(old(exchangeRate), false, false), feeds, exchangeRateConfig.globalConfig, |feeds|);
        && allDataFeedExchangeRate == StoreSnapshots(old(allDataFeedExchangeRate), feeds)
        && exchangeRate == r.rates
        && ok == !r.raised
        && showUpdateErrors == (old(showUpdateErrors) && !(ok && r.missed))
      ensures !ok <==> (|dataFeeds| > 0 &&
        exists k :: k in exchangeRateConfig.globalConfig.items && !TextSource(exchangeRateConfig.globalConfig.items[k]))
      ensures showUpdateErrors ==> old(showUpdateErrors)
      ensures var feeds, gc := Feeds(dataFeeds, prices), exchangeRateConfig.globalConfig;
        ok && (exists i, k :: 0 <= i < |feeds| && k in gc.items && Miss(feeds[i], gc.items[k], k)) ==> !showUpdateErrors
    {
      var feeds := Feeds(dataFeeds, prices);
      var gc := exchangeRateConfig.globalConfig;
      ghost var p0 := Progress(exchangeRate, false, false);
      ScanRaised(p0, feeds, gc, |feeds|);
      StoreAllSnapshots(feeds);
      ok := ScanAllFeeds(feeds, gc);
      assert gc == exchangeRateConfig.globalConfig && feeds == Feeds(dataFeeds, prices);
      if ok {
        ScanMissed(p0, feeds, gc, |feeds|);
      }
    }

    /** The second loop of the refresh (lines 183-198) and the flag update after it
        (lines 199-201); `ok` is false when an exception escapes the loop. */
    method ScanAllFeeds(feeds: seq<Feed>, gc: Dict<SourceConfig>) returns (ok: bool)
      requires Wf(gc)
      modifies this`exchangeRate, this`showUpdateErrors
      ensures var r := ScanFeeds(Progress(old(exchangeRate), false, false), feeds, gc, |feeds|);
        && exchangeRate == r.rates
        && ok == !r.raised
        && showUpdateErrors == (old(showUpdateErrors) && !(ok && r.missed))
    {
      ghost var p0 := Progress(exchangeRate, false, false);
      var hasErrors, raised := false, false;
      var j := 0;
      while j < |feeds| && !raised
        invariant 0 <= j <= |feeds|
        invariant Progress(exchangeRate, hasErrors, raised) == ScanFeeds(p0, feeds, gc, j)
        invariant showUpdateErrors == old(showUpdateErrors)
      {
        hasErrors, raised := RunPass(feeds[j], gc, hasErrors);
        j := j + 1;
      }
      if raised {
        FeedsRaisedStays(p0, feeds, gc, j, |feeds|);
        return false;
      }
      if hasErrors {
        showUpdateErrors := false;
      }
      ok := true;
    }

    /** The first loop of the refresh (lines 181-182): one snapshot per feed, in order. */
    method StoreAllSnapshots(feeds: seq<Feed>)
      modifies this`allDataFeedExchangeRate
      ensures allDataFeedExchangeRate == StoreSnapshots(old(allDataFeedExchangeRate), feeds)
    {
      var i := 0;
      while i < |feeds|
        invariant 0 <= i <= |feeds|
        invariant allDataFeedExchangeRate == StoreSnapshots(old(allDataFeedExchangeRate), feeds[..i])
      {
        StoreSnapshotsStep(old(allDataFeedExchangeRate), feeds, i);
        allDataFeedExchangeRate := allDataFeedExchangeRate[feeds[i].name := feeds[i].prices];
        i := i + 1;
      }
      assert feeds[..|feeds|] == feeds;
    }

    /** One feed's pass of the second loop (lines 184-198), starting from `has_errors` equal
        to `missed0`; `raised` reports the exception that ends the refresh. */
    method RunPass(f: Feed, gc: Dict<SourceConfig>, missed0: bool) returns (missed: bool, raised: bool)
      requires Wf(gc)
      modifies this`exchangeRate
      ensures Progress(exchangeRate, missed, raised) == ScanPass(Progress(old(exchangeRate), missed0, false), f, gc, |gc.order|)
    {
      ghost var p := Progress(exchangeRate, missed0, false);
      missed, raised := missed0, false;
      var n := 0;
      while n < |gc.order| && !raised
        invariant 0 <= n <= |gc.order|
        invariant Progress(exchangeRate, missed, raised) == ScanPass(p, f, gc, n)
      {
        var k := gc.order[n];
        assert k in gc.order;
        var c := gc.items[k];
        var asset := Upper(k);
        if !TextSource(c) {
          raised := true;
        } else if Lower(c.source.value.text) == Lower(f.name) {
          var price := GetPrice(f, asset);
          if Truthy(price) {
            exchangeRate := exchangeRate[asset := Number(price.value)];
          } else {
            missed := true;
          }
        }
        n := n + 1;
      }
      if raised {
        PassRaisedStays(p, f, gc, n, |gc.order|);
      }
    }

    /** `wait_till_ready` (lines 207-214), given for each feed whether waiting for it timed
        out: the warning flag is cleared once some feed has timed out, and never set. */
    method WaitTillReady(timedOut: seq<bool>)
      requires |timedOut| == |dataFeeds|
      modifies this`showWaitTillReadyErrors
      ensures showWaitTillReadyErrors == (old(showWaitTillReadyErrors) && forall i :: 0 <= i < |timedOut| ==> !timedOut[i])
    {
      var i := 0;
      while i < |timedOut|
        invariant 0 <= i <= |timedOut|
        invariant showWaitTillReadyErrors == (old(showWaitTillReadyErrors) && forall j :: 0 <= j < i ==> !timedOut[j])
      {
        if timedOut[i] && showWaitTillReadyErrors {
          showWaitTillReadyErrors := false;
        }
        i := i + 1;
      }
    }

    /** `start` (lines 229-235): stops, then marks the refresh loop as started. */
    method Start()
      modifies this`started
      ensures started
    {
      Stop();
      started := true;
    }

    /** `stop` (lines 237-242). */
    method Stop()
      modifies this`started
      ensures !started
    {
      started := false;
    }

    /** `adjust_token_rate` (lines 136-151): starts the refresh loop if needed, then answers
        from the current tables. */
    method AdjustTokenRate(asset: string, price: Rate, source: Option<string>) returns (r: Result<Rate>)
      modifies this`started
      ensures started
      ensures r == Conversion.AdjustTokenRate(allDataFeedExchangeRate, exchangeRate,
                                             exchangeRateConfig.conversionRequired, asset, price, source)
    {
      if !started {
        Start();
      }
      r := Conversion.AdjustTokenRate(allDataFeedExchangeRate, exchangeRate,
                                      exchangeRateConfig.conversionRequired, asset, price, source);
    }

    /** `convert_token_value` (lines 153-176): starts the refresh loop if needed, then
        answers from the current tables. */
    method ConvertTokenValue(amount: Rate, from: string, to: string, source: Option<string>) returns (r: Result<Rate>)
      modifies this`started
      ensures started
      ensures r == Conversion.ConvertTokenValue(allDataFeedExchangeRate, exchangeRate, amount, from, to, source)
    {
      if !started {
        Start();
      }
      r := Conversion.ConvertTokenValue(allDataFeedExchangeRate, exchangeRate, amount, from, to, source);
    }
  }
}
