# Exchange-rate conversion table

A Dafny model of hummingbot's `ExchangeRateConversion`
(`hummingbot/core/utils/exchange_rate_conversion.py`). This class keeps the table of
USD rates that the trading strategies use to compare token amounts. It does four things:

- It builds a per-asset configuration `{"default": ..., "source": ...}` from two lists in the
  global configuration map, or from an override. Asset keys are upper-cased, and the
  `conversion_required` entries are laid over `global_config`.
- It seeds the rate table `_exchange_rate` with each entry's default.
- On every refresh it stores each data feed's price dictionary. It then overwrites the rate
  of every asset whose source is that feed, as long as the feed has a truthy price for it.
- It answers queries:
  - `get_exchange_rate` picks a table by source name;
  - `adjust_token_rate` scales a price by an asset's rate;
  - `convert_token_value` converts an amount between two tokens, treating ETH and WETH as
    equal in value.

Modules, in dependency order:

- `Rates`:
  - `Option` and `Result`;
  - the exceptions the operations raise;
  - `Rate` (NaN or an exact real);
  - `Cell`, a configuration scalar kept as written: a string or a number;
  - float multiplication and Python truthiness of a price.
- `CaseFold`: `str.upper()` and `str.lower()` on ASCII letters; every other character is left as it is.
- `Dicts`: insertion-ordered string-keyed dictionaries:
  - literals and comprehensions, where a repeated key keeps its first position and its last
    value;
  - `{**g, **c}`;
  - `{k.upper(): v ...}` re-keying.
- `ConfigResolver`: the configuration half of `init_config` and its properties.
- `RateCache`: the refresh step as folds over the feeds and the configuration entries, and
  what they do.
- `Conversion`: the three query operations.
- `ExchangeRates`: the class, as the one shared instance that `get_instance` returns. Its
  fields are the attributes the source updates: the class attributes, and the `_started`
  and warning flags that `start`, `stop` and the refresh methods assign through `self` on
  that instance. Its methods follow the source's loops and are proved against the
  functions above.

Inputs from outside the class are parameters:

- the raw lists `exchange_rate_fetcher` and `exchange_rate_conversion` of the global
  configuration map (the type `Settings`);
- the names of the two built-in feeds;
- at a refresh, the price dictionary each feed holds;
- for `wait_till_ready`, whether waiting for each feed timed out.

Details of the code that the model keeps:

- `e[1]` of a conversion row becomes the default exactly as written, with no numeric
  parsing. A string default such as `"1.0"` stays a string. It only raises later, in
  `adjust_token_rate` or `convert_token_value` (`TypeMismatch`), when that table entry is
  used. So a non-numeric default is not caught when the configuration is built.
- A failed `init_config` is not all-or-nothing:
  - `_data_feeds` is always reassigned;
  - `_exchange_rate_config` is assigned at line 99, before line 103 reads every entry's
    "default";
  - so an override entry without a "default" leaves the new configuration in place with the
    previous rate table.
- `if price:` treats a price of 0 like a missing price, and writes a NaN price.
- `source=None` matches no branch of `get_exchange_rate`. Both conversions call it first, so
  they raise without a source, even for ETH/WETH.
- `adjust_token_rate` checks that the asset is in the configured table `_exchange_rate`, but
  reads the rate from the chosen table. The rate can therefore be missing there
  (`KeyMissing`).
- An exception in a feed's pass ends the refresh, and the rates already written stay:
  - a missing "source" is a KeyError;
  - a source that is not a string has no `.lower()`.

  All snapshots are stored before the first pass. These raises happen exactly when there is
  a feed and some entry lacks a string source.

## Model

| member | source | states |
|---|---|---|
| `Rates.Mul` | hummingbot/core/utils/exchange_rate_conversion.py:149 | the product of two prices is NaN exactly when either is NaN, and otherwise the product of the two numbers |
| `Rates.Truthy` | hummingbot/core/utils/exchange_rate_conversion.py:189 | `if price:` holds exactly for a present price that is NaN or non-zero |
| `CaseFold.Upper` | hummingbot/core/utils/exchange_rate_conversion.py:97-98 | on ASCII letters, `upper()` keeps the length, leaves no lower-case letter and changes only the case of each character |
| `CaseFold.Lower` | hummingbot/core/utils/exchange_rate_conversion.py:187 | on ASCII letters, `lower()` keeps the length, leaves no upper-case letter and changes only the case of each character |
| `CaseFold.LowerEqualIgnoringCase` | hummingbot/core/utils/exchange_rate_conversion.py:187 | two strings lower-case to the same string exactly when they have the same length and agree character by character ignoring case |
| `CaseFold.UpperIdempotent` | hummingbot/core/utils/exchange_rate_conversion.py:144 | upper-casing an upper-cased name changes nothing |
| `Dicts.FromPairs` | hummingbot/core/utils/exchange_rate_conversion.py:91-92 | a dict comprehension holds exactly the keys of its pairs, each with the value of its last pair |
| `Dicts.ItemsLookup` | hummingbot/core/utils/exchange_rate_conversion.py:101 | looking a key up among `d.items()` finds its value in `d`, and nothing for a key `d` lacks |
| `Dicts.Merge` | hummingbot/core/utils/exchange_rate_conversion.py:101 | `{**g, **c}` holds the keys of both, with `c`'s value wherever `c` has the key and `g`'s elsewhere |
| `Dicts.UpperKeys` | hummingbot/core/utils/exchange_rate_conversion.py:97-98 | re-keying by `upper()` gives upper-case keys only, one for every key, each holding the value of a key that upper-cases to it |
| `Dicts.UpperKeysLastWins` | hummingbot/core/utils/exchange_rate_conversion.py:97-98 | among keys that upper-case alike, the one latest in the dict's order gives the value |
| `ConfigResolver.EmptyConfig` | hummingbot/core/utils/exchange_rate_conversion.py:28 | the initial configuration is resolved and its `global_config` is empty |
| `ConfigResolver.RawConfig` | hummingbot/core/utils/exchange_rate_conversion.py:90-101 | the configuration built from the two raw lists is resolved: upper-case keys, with every `conversion_required` entry also the `global_config` entry |
| `ConfigResolver.OverrideConfig` | hummingbot/core/utils/exchange_rate_conversion.py:94-101 | the configuration built from an override is resolved; `conversion_required` has the upper-cased keys of the override's one, and `global_config` the upper-cased keys of both |
| `ConfigResolver.ResolveConfig` | hummingbot/core/utils/exchange_rate_conversion.py:90-101 | with an override the configuration always resolves; without one it resolves exactly when every row is long enough and keyed by a string; every result has upper-case keys and every `conversion_required` entry is also the `global_config` entry |
| `ConfigResolver.DefaultRates` | hummingbot/core/utils/exchange_rate_conversion.py:103 | the new rate table exists exactly when every entry has a "default"; it then has exactly the keys of `global_config`, each holding its default, and replaces the old table whole |
| `ConfigResolver.RawKeys` | hummingbot/core/utils/exchange_rate_conversion.py:91-101 | without an override the `conversion_required` keys are the upper-cased conversion-row names, and the `global_config` keys are those plus the upper-cased fetcher-row names |
| `ConfigResolver.ConversionEntryWins` | hummingbot/core/utils/exchange_rate_conversion.py:91-101 | an asset on the conversion list gets the default and source of one of its conversion rows in `global_config`, whatever the fetcher list says |
| `ConfigResolver.FetcherOnlyEntry` | hummingbot/core/utils/exchange_rate_conversion.py:92-101 | an asset only on the fetcher list has default NaN, the source of one of its fetcher rows, and is not in `conversion_required` |
| `ConfigResolver.InitialRates` | hummingbot/core/utils/exchange_rate_conversion.py:91-103 | without an override, line 103 cannot fail; the seeded table has the `global_config` keys, takes a conversion row's default for assets on the conversion list and NaN for the rest |
| `ConfigResolver.OverrideConversionWins` | hummingbot/core/utils/exchange_rate_conversion.py:94-101 | with an override, a `conversion_required` key that no other key of that dictionary upper-cases alike gives its entry to the `global_config` entry of its upper-cased name |
| `RateCache.GetPrice` | hummingbot/core/utils/exchange_rate_conversion.py:188 | a feed's price is present exactly when its price dictionary has the asset, and is that entry |
| `RateCache.StoreSnapshots` | hummingbot/core/utils/exchange_rate_conversion.py:181-182 | after the snapshot loop the snapshots are those there were before plus one for each feed's name |
| `RateCache.SnapshotsNamed` | hummingbot/core/utils/exchange_rate_conversion.py:181-182 | every feed's name gets a snapshot |
| `RateCache.SnapshotsElsewhere` | hummingbot/core/utils/exchange_rate_conversion.py:181-182 | a name no feed has keeps its snapshot, or its absence |
| `RateCache.SnapshotOfLastFeed` | hummingbot/core/utils/exchange_rate_conversion.py:181-182 | a feed's name holds the prices of the last feed with that name |
| `RateCache.MatchesIgnoringCase` | hummingbot/core/utils/exchange_rate_conversion.py:187 | an entry's source matches a feed exactly when it is a string of the same length as the feed's name that agrees with it character by character ignoring case |
| `RateCache.Visit` | hummingbot/core/utils/exchange_rate_conversion.py:184-198 | one entry: a non-string source raises; a source equal to the feed's name ignoring case writes a truthy price or sets `has_errors`; after a raise nothing changes |
| `RateCache.ScanPass` | hummingbot/core/utils/exchange_rate_conversion.py:185-198 | a pass never undoes a raise or `has_errors`, and never removes a rate |
| `RateCache.ScanFeeds` | hummingbot/core/utils/exchange_rate_conversion.py:183-198 | the feed loop never undoes a raise or `has_errors`, and never removes a rate |
| `RateCache.PassRaised` | hummingbot/core/utils/exchange_rate_conversion.py:185-187 | a pass raises exactly when an entry it reaches has no string source |
| `RateCache.PassMissed` | hummingbot/core/utils/exchange_rate_conversion.py:185-198 | a pass that completes sets `has_errors` exactly when some entry's source is the feed and its price is missing or zero |
| `RateCache.PassRateAt` | hummingbot/core/utils/exchange_rate_conversion.py:185-190 | for one asset, a pass that completes writes the feed's price exactly when an entry it reaches for that asset names the feed and the price is truthy, and otherwise keeps the asset's rate |
| `RateCache.PassRates` | hummingbot/core/utils/exchange_rate_conversion.py:185-190 | a pass that completes writes the feed's price for exactly the entries it hits and leaves every other rate as it was |
| `RateCache.LastHit` | hummingbot/core/utils/exchange_rate_conversion.py:183-190 | the price of the last feed that hits an asset is there exactly when some feed hits it |
| `RateCache.ScanRaised` | hummingbot/core/utils/exchange_rate_conversion.py:183-187 | the refresh raises exactly when there is a feed and some entry's source is missing or not a string |
| `RateCache.ScanMissed` | hummingbot/core/utils/exchange_rate_conversion.py:183-198 | a completed refresh sets `has_errors` exactly when some feed is the source of some entry and has no truthy price for it |
| `RateCache.ScanRates` | hummingbot/core/utils/exchange_rate_conversion.py:183-190 | a completed refresh gives each asset the price of the last feed that hits it and leaves every other rate (and absence) as it was |
| `RateCache.LaterFeedWins` | hummingbot/core/utils/exchange_rate_conversion.py:183-190 | when several feeds hit an asset, the later feed's price is the asset's rate |
| `RateCache.PassUnhit` | hummingbot/core/utils/exchange_rate_conversion.py:185-190 | a pass, whether it completes or raises partway, leaves an asset the feed does not hit as it was |
| `RateCache.FeedsUnhit` | hummingbot/core/utils/exchange_rate_conversion.py:183-190 | the feed loop, whether it completes or raises partway, leaves an asset that no feed reached hits as it was |
| `RateCache.UnhitUnchanged` | hummingbot/core/utils/exchange_rate_conversion.py:183-190 | whether or not the refresh raises, an asset whose source matches no feed, or whose matching feeds have no truthy price, keeps its rate |
| `RateCache.KeysPreserved` | hummingbot/core/utils/exchange_rate_conversion.py:183-190 | whether or not the refresh raises, a table holding every configured asset keeps exactly its key set |
| `Conversion.Lifted` | hummingbot/core/utils/exchange_rate_conversion.py:122-125 | a snapshot read as a table has the snapshot's keys and prices |
| `Conversion.ExchangeRateTable` | hummingbot/core/utils/exchange_rate_conversion.py:116-130 | "default" gives the coin_gecko_api snapshot or fails with "Data feed name not valid"; otherwise a snapshot's name gives it; otherwise "config" gives the configured table; anything else, `None` included, fails with "Source name not valid" |
| `Conversion.AdjustTokenRate` | hummingbot/core/utils/exchange_rate_conversion.py:144-151 | a table error propagates; an upper-cased asset not both in `conversion_required` and the configured table passes the price through; otherwise the result is the chosen table's numeric rate for the asset times the price, a missing rate is a KeyError and a string rate a TypeError |
| `Conversion.IsNaN` | hummingbot/core/utils/exchange_rate_conversion.py:174 | `math.isnan` is true only of NaN and raises on a string |
| `Conversion.RateOf` | hummingbot/core/utils/exchange_rate_conversion.py:172-173 | a missing rate reads as NaN |
| `Conversion.Quotient` | hummingbot/core/utils/exchange_rate_conversion.py:176 | dividing by a zero rate raises; a NaN amount gives NaN; otherwise the result times the target rate is the amount times the source rate |
| `Conversion.ConvertTokenValue` | hummingbot/core/utils/exchange_rate_conversion.py:165-176 | a table error propagates; ETH/WETH in either direction returns the amount; any other success has two numeric rates, the target non-zero |
| `Conversion.NoSourceFails` | hummingbot/core/utils/exchange_rate_conversion.py:116-130 | `get_exchange_rate()` without a source raises |
| `Conversion.ConversionsNeedSource` | hummingbot/core/utils/exchange_rate_conversion.py:144-171 | both conversions raise without a source, ETH and WETH included |
| `Conversion.SnapshotShadowsConfig` | hummingbot/core/utils/exchange_rate_conversion.py:124-128 | a feed named "config" hides the configured table |
| `Conversion.AdjustIgnoresCase` | hummingbot/core/utils/exchange_rate_conversion.py:144 | the asset name's case does not matter |
| `Conversion.ConvertIgnoresCase` | hummingbot/core/utils/exchange_rate_conversion.py:167-168 | the currency names' case does not matter |
| `Conversion.AdjustByConfiguredRate` | hummingbot/core/utils/exchange_rate_conversion.py:147-149 | with the configured table, an asset needing conversion is scaled by its numeric rate |
| `Conversion.NaNSourceRateFails` | hummingbot/core/utils/exchange_rate_conversion.py:172-175 | a missing or NaN source rate raises "Unable to convert", whatever the target rate |
| `Conversion.NaNTargetRateFails` | hummingbot/core/utils/exchange_rate_conversion.py:172-175 | with a numeric source rate, a missing or NaN target rate raises "Unable to convert" |
| `Conversion.ConvertByRates` | hummingbot/core/utils/exchange_rate_conversion.py:172-176 | with numeric rates, the target non-zero, the converted amount times the target rate is the amount times the source rate |
| `Conversion.ConvertRoundTrip` | hummingbot/core/utils/exchange_rate_conversion.py:165-176 | converting A to B and back returns the amount when both rates are non-zero numbers |
| `ExchangeRates.ExchangeRateConversion.constructor` | hummingbot/core/utils/exchange_rate_conversion.py:22-34 | the attributes start empty, unset and not started, with both warning flags on |
| `ExchangeRates.ExchangeRateConversion.InitConfig` | hummingbot/core/utils/exchange_rate_conversion.py:78-106 | the feeds become the override or the built-in feeds; the configuration becomes the resolved one if resolution succeeds; the rate table becomes the defaults only if, in addition, every entry has one; the configuration stays resolved |
| `ExchangeRates.ExchangeRateConversion.ApplyConfig` | hummingbot/core/utils/exchange_rate_conversion.py:99-103 | the configuration is assigned before the defaults are read, so a missing default keeps the new configuration with the old table |
| `ExchangeRates.ExchangeRateConversion.SetGlobalExchangeRateConfig` | hummingbot/core/utils/exchange_rate_conversion.py:56-62 | the override becomes the given one and the configuration is resolved from it, which always succeeds |
| `ExchangeRates.ExchangeRateConversion.SetDataFeeds` | hummingbot/core/utils/exchange_rate_conversion.py:65-71 | the feed override and the feeds become the given ones, then the configuration is re-resolved |
| `ExchangeRates.ExchangeRateConversion.GetInstance` | hummingbot/core/utils/exchange_rate_conversion.py:41-47 | the first call creates the instance and runs `init_config`; later calls run it again only while `global_config` is empty |
| `ExchangeRates.ExchangeRateConversion.UpdateExchangeRatesFromDataFeeds` | hummingbot/core/utils/exchange_rate_conversion.py:178-205 | all snapshots are stored; the rates follow the feed loop; it fails exactly when there is a feed and an entry lacks a string source; a completed refresh with a miss clears the error flag, which never turns back on |
| `ExchangeRates.ExchangeRateConversion.StoreAllSnapshots` | hummingbot/core/utils/exchange_rate_conversion.py:181-182 | the snapshot loop stores every feed's prices under its name, in order |
| `ExchangeRates.ExchangeRateConversion.ScanAllFeeds` | hummingbot/core/utils/exchange_rate_conversion.py:183-201 | the feed loop and the flag update leave the rates, the outcome and the flag that the feed fold gives |
| `ExchangeRates.ExchangeRateConversion.RunPass` | hummingbot/core/utils/exchange_rate_conversion.py:184-198 | one feed's loop over `global_config` leaves the rates, `has_errors` and the raise that the pass fold gives |
| `ExchangeRates.ExchangeRateConversion.WaitTillReady` | hummingbot/core/utils/exchange_rate_conversion.py:207-214 | the warning flag ends on exactly when it was on and no feed timed out |
| `ExchangeRates.ExchangeRateConversion.Start` | hummingbot/core/utils/exchange_rate_conversion.py:229-235 | after `start` the class is started |
| `ExchangeRates.ExchangeRateConversion.Stop` | hummingbot/core/utils/exchange_rate_conversion.py:237-242 | after `stop` the class is not started |
| `ExchangeRates.ExchangeRateConversion.AdjustTokenRate` | hummingbot/core/utils/exchange_rate_conversion.py:136-151 | starts the class if needed and answers as `adjust_token_rate` on the current tables |
| `ExchangeRates.ExchangeRateConversion.ConvertTokenValue` | hummingbot/core/utils/exchange_rate_conversion.py:153-176 | starts the class if needed and answers as `convert_token_value` on the current tables |

## Left out

- `request_loop`, `asyncio.sleep`, `asyncio.ensure_future` and task cancellation (lines 216-227, 234, 240-241): scheduling on the event loop. `Start` and `Stop` only set `started`.
- The `asyncio.wait_for` timeouts of `wait_till_ready` (lines 207-214): time-based waiting. Whether each feed timed out is a parameter.
- `ready_notifier`, `set_update_interval` and `_data_feed_timeout`: they only drive the loop's timing.
- The data feed classes `CoinCapDataFeed` and `CoinGeckoDataFeed`, and the feeds' `start`, `stop` and `get_ready`: network clients that are not part of this model. A feed is its name plus the price dictionary it holds when a refresh reads it. `get_price` is a lookup in that dictionary, and the built-in feed names are a parameter.
- `global_config_map` (lines 85-88): an external configuration subsystem. Its two lists are a parameter, with an unset list read as an empty one.
- Logging (`logger().error`, `.network` and `.warning`): output only.
- IEEE floating point: rates are NaN or exact reals, with no rounding and no infinities.
- CaseFold.Upper: maps the ASCII letters only. Python's `str.upper()` also maps other Unicode letters ('é' to 'É') and can change the length ('ß' to "SS"); the model leaves every non-ASCII character as it is.
- CaseFold.Lower: maps the ASCII letters only, for the same reason; Python's `str.lower()` also maps other Unicode letters.
- Instances other than the shared one. `start`, `stop`, `update_exchange_rates_from_data_feeds` and `wait_till_ready` assign `_started` and the two warning flags through `self` (lines 201, 214, 235 and 242), which creates attributes of that one instance. The model has a single object, the shared instance returned by `get_instance`; a second `ExchangeRateConversion()` would start with `_started` False while its `__init__` re-runs `init_config` on the shared class state (line 134), and that is not modelled.
- The aliasing in the override setters (lines 57-61 and 66-70), where the first call keeps the caller's object and later calls mutate it in place. Only the outcome is modelled: the override equals the new value.
- Override contents that are not dictionaries, and override keys that are not strings. The override's two parts are lists of string-keyed entries, and each entry may lack "default" or "source".
- The copies returned by `exchange_rate` and `all_exchange_rate`: tables are values here, so a copy is the table itself.

