/** The refresh step `update_exchange_rates_from_data_feeds`
    (hummingbot/core/utils/exchange_rate_conversion.py:178-205) as a specification:
    the snapshot pass (lines 181-182) and, for every feed in turn, the pass over the
    `global_config` entries (lines 183-198), as folds.  The method of the class
    follows these folds step by step. */
module RateCache {
  import opened Rates
  import opened CaseFold
  import opened Dicts
  import opened ConfigResolver

  /** A data feed at the moment of the refresh: its name and its `price_dict`. */
  datatype Feed = Feed(name: string, prices: map<string, Rate>)

  /** `data_feed.get_price(asset)`: the feed's price for the asset, None when it has none. */
  function GetPrice(f: Feed, asset: string): (r: Option<Rate>)
    ensures r.Some? <==> asset in f.prices
    ensures r.Some? ==> r.value == f.prices[asset]
  {
    if asset in f.prices then Some(f.prices[asset]) else None
  }

  // ---------------------------------------------------------------------------
  // Snapshots (lines 181-182)

  /** `_all_data_feed_exchange_rate[f.name] = f.price_dict` for each feed in order. */
  function StoreSnapshots(snaps: map<string, map<string, Rate>>, feeds: seq<Feed>): (r: map<string, map<string, Rate>>)
    ensures r.Keys == snaps.Keys + (set i | 0 <= i < |feeds| :: feeds[i].name)
  {
    if |feeds| == 0 then snaps
    else
      var n := |feeds| - 1;
      assert (set i | 0 <= i < |feeds| :: feeds[i].name) == (set i | 0 <= i < n :: feeds[..n][i].name) + {feeds[n].name};
      StoreSnapshots(snaps, feeds[..n])[feeds[n].name := feeds[n].prices]
  }

  /** Every feed's name gets a snapshot. */
  lemma {:induction false} SnapshotsNamed(snaps: map<string, map<string, Rate>>, feeds: seq<Feed>)
    ensures forall i :: 0 <= i < |feeds| ==> feeds[i].name in StoreSnapshots(snaps, feeds)
  {
    if |feeds| > 0 {
      var n := |feeds| - 1;
      SnapshotsNamed(snaps, feeds[..n]);
      assert forall i :: 0 <= i < n ==> feeds[..n][i] == feeds[i];
    }
  }

  /** A name no feed has keeps its snapshot, or its absence. */
  lemma {:induction false} SnapshotsElsewhere(snaps: map<string, map<string, Rate>>, feeds: seq<Feed>, k: string)
    requires forall i :: 0 <= i < |feeds| ==> feeds[i].name != k
    ensures k in StoreSnapshots(snaps, feeds) <==> k in snaps
    ensures k in snaps ==> StoreSnapshots(snaps, feeds)[k] == snaps[k]
  {
    if |feeds| > 0 {
      var n := |feeds| - 1;
      assert forall i :: 0 <= i < n ==> feeds[..n][i] == feeds[i];
      SnapshotsElsewhere(snaps, feeds[..n], k);
    }
  }

  /** A feed's name holds the prices of the last feed of that name. */
  lemma {:induction false} SnapshotOfLastFeed(snaps: map<string, map<string, Rate>>, feeds: seq<Feed>, i: nat)
    requires i < |feeds|
    requires forall j :: i < j < |feeds| ==> feeds[j].name != feeds[i].name
    ensures feeds[i].name in StoreSnapshots(snaps, feeds)
    ensures StoreSnapshots(snaps, feeds)[feeds[i].name] == feeds[i].prices
  {
    var n := |feeds| - 1;
    if i < n {
      assert feeds[..n][i] == feeds[i];
      forall j | i < j < n ensures feeds[..n][j].name != feeds[..n][i].name {
        assert feeds[..n][j] == feeds[j];
      }
      SnapshotOfLastFeed(snaps, feeds[..n], i);
    }
  }

  /** Storing one more feed's snapshot extends the fold by one step. */
  lemma StoreSnapshotsStep(snaps: map<string, map<string, Rate>>, feeds: seq<Feed>, i: nat)
    requires i < |feeds|
    ensures StoreSnapshots(snaps, feeds[..i + 1]) == StoreSnapshots(snaps, feeds[..i])[feeds[i].name := feeds[i].prices]
  {
    assert feeds[..i + 1][..i] == feeds[..i];
  }

  // ---------------------------------------------------------------------------
  // One entry of one feed's pass (lines 184-198)

  /** The entry's "source" is present and is a string, so `.lower()` can be applied. */
  predicate TextSource(c: SourceConfig)
  {
    c.source.Some? && c.source.value.Text?
  }

  /** `config["source"].lower() == source_name.lower()`. */
  predicate Matches(c: SourceConfig, f: Feed)
  {
    TextSource(c) && Lower(c.source.value.text) == Lower(f.name)
  }

  /** The source matches the feed exactly when it is a string equal to the feed's name
      ignoring case. */
  lemma MatchesIgnoringCase(c: SourceConfig, f: Feed)
    ensures Matches(c, f) <==> (TextSource(c) && |c.source.value.text| == |f.name| &&
      forall i :: 0 <= i < |f.name| ==> UpperChar(c.source.value.text[i]) == UpperChar(f.name[i]))
  {
    if TextSource(c) {
      LowerEqualIgnoringCase(c.source.value.text, f.name);
    }
  }

  /** The feed is the entry's source and has a truthy price for the asset: the rate is written. */
  predicate Hit(f: Feed, c: SourceConfig, asset: string)
  {
    Matches(c, f) && Truthy(GetPrice(f, asset))
  }

  /** The feed is the entry's source but its price is missing or zero: `has_errors` is set. */
  predicate Miss(f: Feed, c: SourceConfig, asset: string)
  {
    Matches(c, f) && !Truthy(GetPrice(f, asset))
  }

  /** The state a refresh carries: the rate table, `has_errors`, and whether an exception
      has been raised (after which nothing more happens). */
  datatype Progress = Progress(rates: map<string, Cell>, missed: bool, raised: bool)

  /** One iteration of the innermost loop, for the entry `k: c` and the feed `f`. */
  function Visit(p: Progress, f: Feed, k: string, c: SourceConfig): (r: Progress)
    ensures p.raised ==> r == p
    ensures r.raised <==> p.raised || !TextSource(c)
    ensures r.missed <==> p.missed || (!p.raised && Miss(f, c, Upper(k)))
    ensures r.rates == if !p.raised && Hit(f, c, Upper(k)) then p.rates[Upper(k) := Number(GetPrice(f, Upper(k)).value)] else p.rates
  {
    if p.raised then p
    else if !TextSource(c) then p.(raised := true)
    else if Lower(c.source.value.text) == Lower(f.name) then
      var price := GetPrice(f, Upper(k));
      if Truthy(price) then p.(rates := p.rates[Upper(k) := Number(price.value)])
      else p.(missed := true)
    else p
  }

  /** The first `n` iterations of the loop over `global_config.items()` for the feed `f`. */
  function ScanPass(p: Progress, f: Feed, gc: Dict<SourceConfig>, n: nat): (r: Progress)
    requires Wf(gc) && n <= |gc.order|
    ensures p.raised ==> r == p
    ensures p.missed ==> r.missed
    ensures p.rates.Keys <= r.rates.Keys
  {
    if n == 0 then p
    else
      var k := gc.order[n - 1];
      assert k in gc.order;
      Visit(ScanPass(p, f, gc, n - 1), f, k, gc.items[k])
  }

  /** The loop over the first `m` feeds, each running a full pass. */
  function ScanFeeds(p: Progress, feeds: seq<Feed>, gc: Dict<SourceConfig>, m: nat): (r: Progress)
    requires Wf(gc) && m <= |feeds|
    ensures p.raised ==> r == p
    ensures p.missed ==> r.missed
    ensures p.rates.Keys <= r.rates.Keys
  {
    if m == 0 then p
    else ScanPass(ScanFeeds(p, feeds, gc, m - 1), feeds[m - 1], gc, |gc.order|)
  }

  /** Once an exception is raised in a pass, the rest of the pass changes nothing. */
  lemma {:induction false} PassRaisedStays(p: Progress, f: Feed, gc: Dict<SourceConfig>, n: nat, n': nat)
    requires Wf(gc) && n <= n' <= |gc.order|
    requires ScanPass(p, f, gc, n).raised
    ensures ScanPass(p, f, gc, n') == ScanPass(p, f, gc, n)
  {
    if n' > n {
      PassRaisedStays(p, f, gc, n, n' - 1);
    }
  }

  /** Once an exception is raised, the later feeds change nothing. */
  lemma {:induction false} FeedsRaisedStays(p: Progress, feeds: seq<Feed>, gc: Dict<SourceConfig>, m: nat, m': nat)
    requires Wf(gc) && m <= m' <= |feeds|
    requires ScanFeeds(p, feeds, gc, m).raised
    ensures ScanFeeds(p, feeds, gc, m') == ScanFeeds(p, feeds, gc, m)
  {
    if m' > m {
      FeedsRaisedStays(p, feeds, gc, m, m' - 1);
    }
  }

  // ---------------------------------------------------------------------------
  // What one pass does

  /** A pass raises exactly when one of the entries it reaches has no string source. */
  lemma {:induction false} PassRaised(p: Progress, f: Feed, gc: Dict<SourceConfig>, n: nat)
    requires Wf(gc) && n <= |gc.order| && !p.raised
    ensures ScanPass(p, f, gc, n).raised <==> exists i :: 0 <= i < n && !TextSource(gc.items[gc.order[i]])
  {
    if n > 0 {
      PassRaised(p, f, gc, n - 1);
    }
  }

  /** A pass that does not raise has set `has_errors` exactly when it was set before or
      some entry's source feed is `f` and `f` has no truthy price for it. */
  lemma {:induction false} PassMissed(p: Progress, f: Feed, gc: Dict<SourceConfig>, n: nat)
    requires Wf(gc) && UpperKeyed(gc) && n <= |gc.order| && !p.raised
    requires !ScanPass(p, f, gc, n).raised
    ensures ScanPass(p, f, gc, n).missed <==>
      p.missed || exists i :: 0 <= i < n && Miss(f, gc.items[gc.order[i]], gc.order[i])
  {
    if n > 0 {
      var k := gc.order[n - 1];
      assert k in gc.order;
      UpperOfUpper(k);
      PassMissed(p, f, gc, n - 1);
    }
  }

  /** The keys among the first `n` of `gc` whose source feed is `f` with a truthy price. */
  predicate PassHit(f: Feed, gc: Dict<SourceConfig>, n: nat, a: string)
    requires n <= |gc.order|
  {
    a in gc.order[..n] && a in gc.items && Hit(f, gc.items[a], a)
  }

  /** For one asset `a`: a pass that does not raise writes the price of `f` for `a` exactly
      when an entry it reaches for `a` has `f` as its source and a truthy price, and
      otherwise leaves `a` as it was. */
  lemma {:induction false} PassRateAt(p: Progress, f: Feed, gc: Dict<SourceConfig>, n: nat, a: string)
    requires Wf(gc) && UpperKeyed(gc) && n <= |gc.order| && !p.raised
    requires !ScanPass(p, f, gc, n).raised
    ensures var r := ScanPass(p, f, gc, n);
      (a in r.rates <==> a in p.rates || PassHit(f, gc, n, a)) &&
      (a in r.rates ==> r.rates[a] == if PassHit(f, gc, n, a) then Number(GetPrice(f, a).value) else p.rates[a])
  {
    if n > 0 {
      var k := gc.order[n - 1];
      assert k in gc.order;
      UpperOfUpper(k);
      var q := ScanPass(p, f, gc, n - 1);
      var c := gc.items[k];
      assert ScanPass(p, f, gc, n) == Visit(q, f, k, c);
      PassRateAt(p, f, gc, n - 1, a);
      VisitRateAt(q, f, k, c, a);
      assert a in gc.order[..n] <==> a in gc.order[..n - 1] || a == k by {
        assert gc.order[..n] == gc.order[..n - 1] + [k];
      }
    }
  }

  /** One entry's step, for one asset: only the entry's own key can change. */
  lemma VisitRateAt(q: Progress, f: Feed, k: string, c: SourceConfig, a: string)
    requires !q.raised && Upper(k) == k
    ensures var r := Visit(q, f, k, c);
      (a in r.rates <==> a in q.rates || (a == k && Hit(f, c, k))) &&
      (a in r.rates ==> r.rates[a] == if a == k && Hit(f, c, k) then Number(GetPrice(f, k).value) else q.rates[a])
  {
  }

  /** A pass that does not raise writes the price of `f` for exactly the entries whose
      source is `f` and whose price is truthy, and leaves the rest of the table alone. */
  lemma PassRates(p: Progress, f: Feed, gc: Dict<SourceConfig>, n: nat)
    requires Wf(gc) && UpperKeyed(gc) && n <= |gc.order| && !p.raised
    requires !ScanPass(p, f, gc, n).raised
    ensures var r := ScanPass(p, f, gc, n);
      forall a :: (a in r.rates <==> a in p.rates || PassHit(f, gc, n, a)) &&
        (a in r.rates ==> r.rates[a] == if PassHit(f, gc, n, a) then Number(GetPrice(f, a).value) else p.rates[a])
  {
    forall a
      ensures var r := ScanPass(p, f, gc, n);
        (a in r.rates <==> a in p.rates || PassHit(f, gc, n, a)) &&
        (a in r.rates ==> r.rates[a] == if PassHit(f, gc, n, a) then Number(GetPrice(f, a).value) else p.rates[a])
    {
      PassRateAt(p, f, gc, n, a);
    }
  }

  // ---------------------------------------------------------------------------
  // What the whole refresh does

  /** The price that the last feed among the first `m` that hits the asset `a` gives it. */
  function LastHit(feeds: seq<Feed>, gc: Dict<SourceConfig>, a: string, m: nat): (r: Option<Rate>)
    requires m <= |feeds|
    ensures r.Some? <==> exists i :: 0 <= i < m && a in gc.items && Hit(feeds[i], gc.items[a], a)
  {
    if m == 0 then None
    else if a in gc.items && Hit(feeds[m - 1], gc.items[a], a) then GetPrice(feeds[m - 1], a)
    else LastHit(feeds, gc, a, m - 1)
  }

  /** The refresh raises exactly when there is a feed and some entry's source is missing
      or is not a string (the first feed's pass reaches every entry). */
  lemma {:induction false} ScanRaised(p: Progress, feeds: seq<Feed>, gc: Dict<SourceConfig>, m: nat)
    requires Wf(gc) && m <= |feeds| && !p.raised
    ensures ScanFeeds(p, feeds, gc, m).raised <==> m > 0 && exists k :: k in gc.items && !TextSource(gc.items[k])
  {
    if m > 0 {
      ScanRaised(p, feeds, gc, m - 1);
      var q := ScanFeeds(p, feeds, gc, m - 1);
      if !q.raised {
        PassRaised(q, feeds[m - 1], gc, |gc.order|);
        if exists k :: k in gc.items && !TextSource(gc.items[k]) {
          var k :| k in gc.items && !TextSource(gc.items[k]);
          var i :| 0 <= i < |gc.order| && gc.order[i] == k;
        }
      }
    }
  }

  /** A refresh that does not raise sets `has_errors` exactly when some feed is the source
      of some entry and has no truthy price for it. */
  lemma {:induction false} ScanMissed(p: Progress, feeds: seq<Feed>, gc: Dict<SourceConfig>, m: nat)
    requires Wf(gc) && UpperKeyed(gc) && m <= |feeds| && !p.raised
    requires !ScanFeeds(p, feeds, gc, m).raised
    ensures ScanFeeds(p, feeds, gc, m).missed <==>
      p.missed || exists i, k :: 0 <= i < m && k in gc.items && Miss(feeds[i], gc.items[k], k)
  {
    if m > 0 {
      var q := ScanFeeds(p, feeds, gc, m - 1);
      ScanMissed(p, feeds, gc, m - 1);
      PassMissed(q, feeds[m - 1], gc, |gc.order|);
      forall k | k in gc.items && Miss(feeds[m - 1], gc.items[k], k)
        ensures exists i :: 0 <= i < |gc.order| && Miss(feeds[m - 1], gc.items[gc.order[i]], gc.order[i])
      {
        var i :| 0 <= i < |gc.order| && gc.order[i] == k;
      }
      forall i | 0 <= i < |gc.order| && Miss(feeds[m - 1], gc.items[gc.order[i]], gc.order[i])
        ensures exists k :: k in gc.items && Miss(feeds[m - 1], gc.items[k], k)
      {
        assert gc.order[i] in gc.order;
      }
    }
  }

  /** After a refresh that does not raise, an asset holds the price of the last feed that
      hits it, and an asset no feed hits keeps its entry (or its absence). */
  lemma {:induction false} ScanRates(p: Progress, feeds: seq<Feed>, gc: Dict<SourceConfig>, m: nat)
    requires Wf(gc) && UpperKeyed(gc) && m <= |feeds| && !p.raised
    requires !ScanFeeds(p, feeds, gc, m).raised
    ensures var r := ScanFeeds(p, feeds, gc, m);
      forall a :: (a in r.rates <==> a in p.rates || LastHit(feeds, gc, a, m).Some?) &&
        (a in r.rates ==> r.rates[a] == if LastHit(feeds, gc, a, m).Some? then Number(LastHit(feeds, gc, a, m).value) else p.rates[a])
  {
    if m > 0 {
      var q := ScanFeeds(p, feeds, gc, m - 1);
      ScanRates(p, feeds, gc, m - 1);
      PassRates(q, feeds[m - 1], gc, |gc.order|);
      assert gc.order[..|gc.order|] == gc.order;
    }
  }

  /** The `i`-th feed hits `a` and no later feed does: the last hit is that feed's price. */
  lemma {:induction false} LastHitAt(feeds: seq<Feed>, gc: Dict<SourceConfig>, a: string, i: nat, m: nat)
    requires i < m <= |feeds| && a in gc.items && Hit(feeds[i], gc.items[a], a)
    requires forall j :: i < j < m ==> !Hit(feeds[j], gc.items[a], a)
    ensures LastHit(feeds, gc, a, m) == GetPrice(feeds[i], a)
  {
    if m - 1 > i {
      LastHitAt(feeds, gc, a, i, m - 1);
    }
  }

  /** Precedence among feeds: when several feeds hit an asset, the later one in list order wins. */
  lemma LaterFeedWins(p: Progress, feeds: seq<Feed>, gc: Dict<SourceConfig>, a: string, i: nat)
    requires Wf(gc) && UpperKeyed(gc) && !p.raised && !ScanFeeds(p, feeds, gc, |feeds|).raised
    requires i < |feeds| && a in gc.items && Hit(feeds[i], gc.items[a], a)
    requires forall j :: i < j < |feeds| ==> !Hit(feeds[j], gc.items[a], a)
    ensures a in ScanFeeds(p, feeds, gc, |feeds|).rates
    ensures ScanFeeds(p, feeds, gc, |feeds|).rates[a] == Number(feeds[i].prices[a])
  {
    ScanRates(p, feeds, gc, |feeds|);
    LastHitAt(feeds, gc, a, i, |feeds|);
  }

  /** A pass, complete or cut short by a raise, leaves alone an asset that the feed does
      not hit. */
  lemma {:induction false} PassUnhit(p: Progress, f: Feed, gc: Dict<SourceConfig>, n: nat, a: string)
    requires Wf(gc) && UpperKeyed(gc) && n <= |gc.order|
    requires a !in gc.items || !Hit(f, gc.items[a], a)
    ensures var r := ScanPass(p, f, gc, n);
      (a in r.rates <==> a in p.rates) && (a in r.rates ==> r.rates[a] == p.rates[a])
  {
    if n > 0 {
      var k := gc.order[n - 1];
      assert k in gc.order;
      UpperOfUpper(k);
      var q := ScanPass(p, f, gc, n - 1);
      assert ScanPass(p, f, gc, n) == Visit(q, f, k, gc.items[k]);
      PassUnhit(p, f, gc, n - 1, a);
      if !q.raised {
        VisitRateAt(q, f, k, gc.items[k], a);
      }
    }
  }

  /** The refresh, complete or cut short by a raise, leaves alone an asset that no feed
      among the first `m` hits. */
  lemma {:induction false} FeedsUnhit(p: Progress, feeds: seq<Feed>, gc: Dict<SourceConfig>, m: nat, a: string)
    requires Wf(gc) && UpperKeyed(gc) && m <= |feeds|
    requires forall i :: 0 <= i < m ==> a !in gc.items || !Hit(feeds[i], gc.items[a], a)
    ensures var r := ScanFeeds(p, feeds, gc, m);
      (a in r.rates <==> a in p.rates) && (a in r.rates ==> r.rates[a] == p.rates[a])
  {
    if m > 0 {
      FeedsUnhit(p, feeds, gc, m - 1, a);
      PassUnhit(ScanFeeds(p, feeds, gc, m - 1), feeds[m - 1], gc, |gc.order|, a);
    }
  }

  /** An asset that no feed hits keeps its entry, whether or not the refresh raises: its
      source matches no feed, or every matching feed's price is missing or zero. */
  lemma UnhitUnchanged(p: Progress, feeds: seq<Feed>, gc: Dict<SourceConfig>, a: string)
    requires Wf(gc) && UpperKeyed(gc)
    requires forall i :: 0 <= i < |feeds| ==> a !in gc.items || !Hit(feeds[i], gc.items[a], a)
    ensures a in ScanFeeds(p, feeds, gc, |feeds|).rates <==> a in p.rates
    ensures a in p.rates ==> ScanFeeds(p, feeds, gc, |feeds|).rates[a] == p.rates[a]
  {
    FeedsUnhit(p, feeds, gc, |feeds|, a);
  }

  /** A table that already holds every configured asset keeps exactly its key set, whether
      or not the refresh raises. */
  lemma KeysPreserved(p: Progress, feeds: seq<Feed>, gc: Dict<SourceConfig>)
    requires Wf(gc) && UpperKeyed(gc)
    requires gc.items.Keys <= p.rates.Keys
    ensures ScanFeeds(p, feeds, gc, |feeds|).rates.Keys == p.rates.Keys
  {
    var r := ScanFeeds(p, feeds, gc, |feeds|);
    forall a | a in r.rates ensures a in p.rates {
      if a !in gc.items {
        FeedsUnhit(p, feeds, gc, |feeds|, a);
      }
    }
  }
}
