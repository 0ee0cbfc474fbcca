/** The configuration half of `init_config`
    (hummingbot/core/utils/exchange_rate_conversion.py:90-103): from the raw
    `exchange_rate_fetcher` and `exchange_rate_conversion` lists, or from an
    override, it builds `conversion_required` and `global_config` with
    upper-case keys, lays `conversion_required` over `global_config`, and
    seeds the rate table with each entry's "default". */
module ConfigResolver {
  import opened Rates
  import opened CaseFold
  import opened Dicts

  /** One asset's entry `{"default": ..., "source": ...}`; an override entry may lack either key. */
  datatype SourceConfig = SourceConfig(default: Option<Cell>, source: Option<Cell>)

  /** One row of a raw configuration list, as the configuration map holds it. */
  type Row = seq<Cell>

  /** The two raw lists of the global configuration map (an unset list is the empty list). */
  datatype Settings = Settings(fetcherRows: seq<Row>, conversionRows: seq<Row>)

  /** The override dictionary: each of its two keys may be absent; a present one
      holds a dictionary, given by the key/value pairs of its literal. */
  datatype Override = Override(
    conversionRequired: Option<seq<(string, SourceConfig)>>,
    globalConfig: Option<seq<(string, SourceConfig)>>)

  /** `_exchange_rate_config`. */
  datatype RateConfig = RateConfig(conversionRequired: Dict<SourceConfig>, globalConfig: Dict<SourceConfig>)

  /** The class attribute's initial value: two empty dictionaries. */
  function EmptyConfig(): (c: RateConfig)
    ensures Resolved(c) && c.globalConfig.items == map[]
  {
    RateConfig(Empty(), Empty())
  }

  /** What every resolved configuration satisfies: both maps have upper-case keys,
      and every `conversion_required` entry is also the `global_config` entry. */
  predicate Resolved(c: RateConfig)
  {
    && Wf(c.conversionRequired) && Wf(c.globalConfig)
    && UpperKeyed(c.conversionRequired) && UpperKeyed(c.globalConfig)
    && forall k :: k in c.conversionRequired.items ==>
         k in c.globalConfig.items && c.globalConfig.items[k] == c.conversionRequired.items[k]
  }

  /** A row long enough for the fields read from it, whose first field is a string
      (the key `.upper()` is applied to). */
  predicate KeyedRow(row: Row, arity: nat)
  {
    0 < arity <= |row| && row[0].Text?
  }

  predicate RowsParse(s: Settings)
  {
    && (forall i :: 0 <= i < |s.fetcherRows| ==> KeyedRow(s.fetcherRows[i], 2))
    && (forall i :: 0 <= i < |s.conversionRows| ==> KeyedRow(s.conversionRows[i], 3))
  }

  /** `{e[0]: {"default": NaN, "source": e[1]} for e in fetcher_global_config}`, as pairs. */
  function FetcherPairs(rows: seq<Row>): seq<(string, SourceConfig)>
    requires forall i :: 0 <= i < |rows| ==> KeyedRow(rows[i], 2)
  {
    seq(|rows|, i requires 0 <= i < |rows| && KeyedRow(rows[i], 2) =>
      (rows[i][0].text, SourceConfig(Some(Number(NaN)), Some(rows[i][1]))))
  }

  /** `{e[0]: {"default": e[1], "source": e[2]} for e in rate_conversion_config}`, as pairs. */
  function ConversionPairs(rows: seq<Row>): seq<(string, SourceConfig)>
    requires forall i :: 0 <= i < |rows| ==> KeyedRow(rows[i], 3)
  {
    seq(|rows|, i requires 0 <= i < |rows| && KeyedRow(rows[i], 3) =>
      (rows[i][0].text, SourceConfig(Some(rows[i][1]), Some(rows[i][2]))))
  }

  function PairsOrEmpty(d: Option<seq<(string, SourceConfig)>>): seq<(string, SourceConfig)>
  {
    if d.Some? then d.value else []
  }

  /** Lines 97-101 on the dictionaries built from the raw lists (lines 91-92). */
  function RawConfig(s: Settings): (c: RateConfig)
    requires RowsParse(s)
    ensures Resolved(c)
  {
    var cr := UpperKeys(FromPairs(ConversionPairs(s.conversionRows)));
    RateConfig(cr, Merge(UpperKeys(FromPairs(FetcherPairs(s.fetcherRows))), cr))
  }

  /** Lines 97-101 on the override's two dictionaries (lines 94-95, a missing key reading
      as the empty dictionary): the keys of `conversion_required` are the upper-cased keys
      of the override's one, and those of `global_config` the upper-cased keys of both. */
  function OverrideConfig(ov: Override): (c: RateConfig)
    ensures Resolved(c)
    ensures forall u :: u in c.conversionRequired.items <==> PairNamed(PairsOrEmpty(ov.conversionRequired), u)
    ensures forall u :: u in c.globalConfig.items <==>
      PairNamed(PairsOrEmpty(ov.globalConfig), u) || PairNamed(PairsOrEmpty(ov.conversionRequired), u)
  {
    var cps, gps := PairsOrEmpty(ov.conversionRequired), PairsOrEmpty(ov.globalConfig);
    KeysOfRows(cps, FromPairs(cps));
    KeysOfRows(gps, FromPairs(gps));
    var cr := UpperKeys(FromPairs(cps));
    RateConfig(cr, Merge(UpperKeys(FromPairs(gps)), cr))
  }

  /** The `_exchange_rate_config` that line 99 assigns, or None when an exception is raised
      before it: without an override, a raw row that is too short or whose key is not a
      string.  Every result is a resolved configuration. */
  function ResolveConfig(s: Settings, ov: Option<Override>): (r: Option<RateConfig>)
    ensures r.Some? <==> ov.Some? || RowsParse(s)
    ensures r.Some? ==> Resolved(r.value)
  {
    if ov.Some? then Some(OverrideConfig(ov.value))
    else if RowsParse(s) then Some(RawConfig(s))
    else None
  }

  /** `{k: v["default"] for k, v in global_config.items()}` (line 103): None when an entry
      has no "default" (a KeyError); otherwise the keys of `global_config`, each mapped to
      its default. */
  function DefaultRates(gc: Dict<SourceConfig>): (r: Option<map<string, Cell>>)
    ensures r.Some? <==> forall k :: k in gc.items ==> gc.items[k].default.Some?
    ensures r.Some? ==> r.value.Keys == gc.items.Keys
    ensures r.Some? ==> forall k :: k in gc.items ==> r.value[k] == gc.items[k].default.value
  {
    if forall k :: k in gc.items ==> gc.items[k].default.Some? then
      Some(map k | k in gc.items :: gc.items[k].default.value)
    else None
  }

  // ---------------------------------------------------------------------------
  // The resolved configuration in terms of the raw lists

  /** A key of `FromPairs(ps)` comes from one of the pairs and holds that pair's value. */
  lemma PairFromRow<V>(ps: seq<(string, V)>, k: string)
    requires k in FromPairs(ps).items
    ensures exists i :: 0 <= i < |ps| && ps[i] == (k, FromPairs(ps).items[k])
  {
    LookupFinds(ps, k);
  }

  /** Without an override, the keys of `global_config` are the upper-cased first fields of
      the rows of both lists, and those of `conversion_required` are the upper-cased first
      fields of the conversion rows. */
  lemma {:induction false} RawKeys(s: Settings)
    requires RowsParse(s)
    ensures var c := RawConfig(s);
      && (forall u :: u in c.conversionRequired.items <==> ConversionNames(s, u))
      && (forall u :: u in c.globalConfig.items <==> FetcherNames(s, u) || ConversionNames(s, u))
  {
    var fp, cp := FetcherPairs(s.fetcherRows), ConversionPairs(s.conversionRows);
    KeysOfRows(fp, FromPairs(fp));
    KeysOfRows(cp, FromPairs(cp));
    FetcherPairNames(s);
    ConversionPairNames(s);
  }

  lemma FetcherPairNames(s: Settings)
    requires RowsParse(s)
    ensures forall u :: FetcherNames(s, u) <==> PairNamed(FetcherPairs(s.fetcherRows), u)
  {
    var ps := FetcherPairs(s.fetcherRows);
    forall u ensures FetcherNames(s, u) <==> PairNamed(ps, u) {
      if FetcherNames(s, u) {
        var i :| 0 <= i < |s.fetcherRows| && Upper(s.fetcherRows[i][0].text) == u;
        assert ps[i].0 == s.fetcherRows[i][0].text;
      }
      if PairNamed(ps, u) {
        var i :| 0 <= i < |ps| && Upper(ps[i].0) == u;
        assert ps[i].0 == s.fetcherRows[i][0].text;
      }
    }
  }

  lemma ConversionPairNames(s: Settings)
    requires RowsParse(s)
    ensures forall u :: ConversionNames(s, u) <==> PairNamed(ConversionPairs(s.conversionRows), u)
  {
    var ps := ConversionPairs(s.conversionRows);
    forall u ensures ConversionNames(s, u) <==> PairNamed(ps, u) {
      if ConversionNames(s, u) {
        var i :| 0 <= i < |s.conversionRows| && Upper(s.conversionRows[i][0].text) == u;
        assert ps[i].0 == s.conversionRows[i][0].text;
      }
      if PairNamed(ps, u) {
        var i :| 0 <= i < |ps| && Upper(ps[i].0) == u;
        assert ps[i].0 == s.conversionRows[i][0].text;
      }
    }
  }

  /** Some pair's key upper-cases to `u`. */
  predicate PairNamed<V>(ps: seq<(string, V)>, u: string)
  {
    exists i :: 0 <= i < |ps| && Upper(ps[i].0) == u
  }

  /** Some conversion row's key upper-cases to `u`. */
  predicate ConversionNames(s: Settings, u: string)
    requires RowsParse(s)
  {
    exists i :: 0 <= i < |s.conversionRows| && Upper(s.conversionRows[i][0].text) == u
  }

  /** Some fetcher row's key upper-cases to `u`. */
  predicate FetcherNames(s: Settings, u: string)
    requires RowsParse(s)
  {
    exists i :: 0 <= i < |s.fetcherRows| && Upper(s.fetcherRows[i][0].text) == u
  }

  /** The upper-cased keys of `FromPairs(ps)` are the upper-cased keys of the pairs. */
  lemma KeysOfRows(ps: seq<(string, SourceConfig)>, d: Dict<SourceConfig>)
    requires d == FromPairs(ps)
    ensures forall u :: u in UpperKeys(d).items <==> PairNamed(ps, u)
  {
    var r := UpperKeys(d);
    forall u ensures u in r.items <==> PairNamed(ps, u) {
      if u in r.items {
        var k :| k in d.items && Upper(k) == u && r.items[u] == d.items[k];
        PairFromRow(ps, k);
      }
      if i :| 0 <= i < |ps| && Upper(ps[i].0) == u {
        LookupSomeOfMember(ps, i);
      }
    }
  }

  /** An upper-cased key of `FromPairs(ps)` holds the value of one of the pairs whose
      key upper-cases to it. */
  lemma UpperEntry<V>(ps: seq<(string, V)>, u: string)
    requires u in UpperKeys(FromPairs(ps)).items
    ensures exists i :: 0 <= i < |ps| && Upper(ps[i].0) == u && UpperKeys(FromPairs(ps)).items[u] == ps[i].1
  {
    var d := FromPairs(ps);
    var k :| k in d.items && Upper(k) == u && UpperKeys(d).items[u] == d.items[k];
    LookupFinds(ps, k);
  }

  /** Conversion row `i` has a key that upper-cases to `u`, default `d` and source `src`. */
  predicate ConversionRow(rows: seq<Row>, i: int, u: string, d: Cell, src: Cell)
    requires forall j :: 0 <= j < |rows| ==> KeyedRow(rows[j], 3)
  {
    0 <= i < |rows| && KeyedRow(rows[i], 3) && Upper(rows[i][0].text) == u && rows[i][1] == d && rows[i][2] == src
  }

  /** Fetcher row `i` has a key that upper-cases to `u` and source `src`. */
  predicate FetcherRow(rows: seq<Row>, i: int, u: string, src: Cell)
    requires forall j :: 0 <= j < |rows| ==> KeyedRow(rows[j], 2)
  {
    0 <= i < |rows| && KeyedRow(rows[i], 2) && Upper(rows[i][0].text) == u && rows[i][1] == src
  }

  lemma ConversionPairAt(rows: seq<Row>, i: nat)
    requires forall i :: 0 <= i < |rows| ==> KeyedRow(rows[i], 3)
    requires i < |rows|
    ensures i < |ConversionPairs(rows)|
    ensures ConversionPairs(rows)[i] == (rows[i][0].text, SourceConfig(Some(rows[i][1]), Some(rows[i][2])))
  {
  }

  lemma FetcherPairAt(rows: seq<Row>, i: nat)
    requires forall i :: 0 <= i < |rows| ==> KeyedRow(rows[i], 2)
    requires i < |rows|
    ensures i < |FetcherPairs(rows)|
    ensures FetcherPairs(rows)[i] == (rows[i][0].text, SourceConfig(Some(Number(NaN)), Some(rows[i][1])))
  {
  }

  /** An upper-cased conversion key holds the default and source of one of its rows. */
  lemma ConversionRowEntry(rows: seq<Row>, u: string)
    requires forall i :: 0 <= i < |rows| ==> KeyedRow(rows[i], 3)
    requires u in UpperKeys(FromPairs(ConversionPairs(rows))).items
    ensures var e := UpperKeys(FromPairs(ConversionPairs(rows))).items[u];
      e.default.Some? && e.source.Some? && exists i :: ConversionRow(rows, i, u, e.default.value, e.source.value)
  {
    var cp := ConversionPairs(rows);
    UpperEntry(cp, u);
    var i :| 0 <= i < |cp| && Upper(cp[i].0) == u && UpperKeys(FromPairs(cp)).items[u] == cp[i].1;
    ConversionPairAt(rows, i);
    assert ConversionRow(rows, i, u, rows[i][1], rows[i][2]);
  }

  /** An upper-cased fetcher key holds default NaN and the source of one of its rows. */
  lemma FetcherRowEntry(rows: seq<Row>, u: string)
    requires forall i :: 0 <= i < |rows| ==> KeyedRow(rows[i], 2)
    requires u in UpperKeys(FromPairs(FetcherPairs(rows))).items
    ensures var e := UpperKeys(FromPairs(FetcherPairs(rows))).items[u];
      e.default == Some(Number(NaN)) && e.source.Some? && exists i :: FetcherRow(rows, i, u, e.source.value)
  {
    var fp := FetcherPairs(rows);
    UpperEntry(fp, u);
    var i :| 0 <= i < |fp| && Upper(fp[i].0) == u && UpperKeys(FromPairs(fp)).items[u] == fp[i].1;
    FetcherPairAt(rows, i);
    assert FetcherRow(rows, i, u, rows[i][1]);
  }

  /** Conversion wins: without an override, the `global_config` entry of an asset that the
      conversion list names is its `conversion_required` entry, which is the default and
      source of one of the conversion rows for that asset. */
  lemma {:induction false} ConversionEntryWins(s: Settings, u: string)
    requires RowsParse(s) && ConversionNames(s, u)
    ensures var c := RawConfig(s);
      && u in c.conversionRequired.items && u in c.globalConfig.items
      && c.globalConfig.items[u] == c.conversionRequired.items[u]
      && var e := c.globalConfig.items[u];
         e.default.Some? && e.source.Some? && exists i :: ConversionRow(s.conversionRows, i, u, e.default.value, e.source.value)
  {
    RawKeys(s);
    ConversionRowEntry(s.conversionRows, u);
  }

  /** An asset that only the fetcher list names gets default NaN and the source of one of
      its fetcher rows. */
  lemma {:induction false} FetcherOnlyEntry(s: Settings, u: string)
    requires RowsParse(s) && FetcherNames(s, u) && !ConversionNames(s, u)
    ensures var c := RawConfig(s);
      && u in c.globalConfig.items && u !in c.conversionRequired.items
      && c.globalConfig.items[u].default == Some(Number(NaN))
      && c.globalConfig.items[u].source.Some?
      && exists i :: FetcherRow(s.fetcherRows, i, u, c.globalConfig.items[u].source.value)
  {
    RawKeys(s);
    var fp := FetcherPairs(s.fetcherRows);
    FetcherPairNames(s);
    KeysOfRows(fp, FromPairs(fp));
    FetcherRowEntry(s.fetcherRows, u);
  }

  /** After a raw-list resolution line 103 cannot fail, and the seeded rate table maps
      each asset of the conversion list to the default of one of its conversion rows and
      every other configured asset to NaN. */
  lemma {:induction false} InitialRates(s: Settings)
    requires RowsParse(s)
    ensures var d := DefaultRates(RawConfig(s).globalConfig);
      && d.Some?
      && d.value.Keys == RawConfig(s).globalConfig.items.Keys
      && forall u :: u in d.value ==>
           if ConversionNames(s, u)
           then exists i, src :: ConversionRow(s.conversionRows, i, u, d.value[u], src)
           else d.value[u] == Number(NaN)
  {
    var gc := RawConfig(s).globalConfig;
    RawKeys(s);
    forall u | u in gc.items
      ensures gc.items[u].default.Some?
      ensures if ConversionNames(s, u)
        then exists i, src :: ConversionRow(s.conversionRows, i, u, gc.items[u].default.value, src)
        else gc.items[u].default == Some(Number(NaN))
    {
      if ConversionNames(s, u) {
        ConversionEntryWins(s, u);
      } else {
        FetcherOnlyEntry(s, u);
      }
    }
  }

  /** With an override, a `conversion_required` key also present in `global_config` takes
      the `conversion_required` entry, whatever `global_config` said for it. */
  lemma {:induction false} OverrideConversionWins(ov: Override, k: string)
    requires Lookup(PairsOrEmpty(ov.conversionRequired), k).Some?
    requires forall j :: 0 <= j < |PairsOrEmpty(ov.conversionRequired)| ==>
      PairsOrEmpty(ov.conversionRequired)[j].0 == k || Upper(PairsOrEmpty(ov.conversionRequired)[j].0) != Upper(k)
    ensures var c := OverrideConfig(ov);
      && Upper(k) in c.globalConfig.items
      && c.globalConfig.items[Upper(k)] == Lookup(PairsOrEmpty(ov.conversionRequired), k).value
  {
    var cp := PairsOrEmpty(ov.conversionRequired);
    var cr0 := FromPairs(cp);
    var i :| 0 <= i < |cr0.order| && cr0.order[i] == k;
    forall j | i < j < |cr0.order| ensures Upper(cr0.order[j]) != Upper(cr0.order[i]) {
      var kj := cr0.order[j];
      assert kj in cr0.items;
      PairFromRow(cp, kj);
    }
    UpperKeysLastWins(cr0, i);
  }
}
