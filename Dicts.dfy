/** Python dictionaries with string keys, where their insertion order matters: a key order plus
    the key-to-value map.  A literal or comprehension `{k: v for ...}` keeps
    the first position and the last value of a repeated key; `{**g, **c}`
    inserts the items of `c` into a copy of `g`. */
module Dicts {
  import opened Rates
  import opened CaseFold

  datatype Dict<V> = Dict(order: seq<string>, items: map<string, V>)

  /** The keys in `order` are distinct and are exactly the keys of `items`. */
  predicate Wf<V>(d: Dict<V>)
  {
    && (forall i, j :: 0 <= i < j < |d.order| ==> d.order[i] != d.order[j])
    && (forall k :: k in d.items ==> k in d.order)
    && (forall k :: k in d.order ==> k in d.items)
  }

  function Empty<V>(): (d: Dict<V>)
    ensures Wf(d) && d.items == map[]
  {
    Dict([], map[])
  }

  /** `d[k] = v`: a new key goes to the end, an existing key keeps its place. */
  function Insert<V>(d: Dict<V>, k: string, v: V): (r: Dict<V>)
    ensures Wf(d) ==> Wf(r)
    ensures r.items == d.items[k := v]
    ensures k in d.items ==> r.order == d.order
  {
    if k in d.items then Dict(d.order, d.items[k := v])
    else Dict(d.order + [k], d.items[k := v])
  }

  /** The value of the LAST pair whose key is `k`, scanning from the end. */
  function Lookup<V>(ps: seq<(string, V)>, k: string): Option<V>
  {
    if |ps| == 0 then None
    else if ps[|ps| - 1].0 == k then Some(ps[|ps| - 1].1)
    else Lookup(ps[..|ps| - 1], k)
  }

  /** A pair that `Lookup` finds is one of the pairs. */
  lemma {:induction false} LookupFinds<V>(ps: seq<(string, V)>, k: string)
    requires Lookup(ps, k).Some?
    ensures exists i :: 0 <= i < |ps| && ps[i] == (k, Lookup(ps, k).value)
  {
    var n := |ps| - 1;
    if ps[n].0 != k {
      LookupFinds(ps[..n], k);
      var i :| 0 <= i < n && ps[..n][i] == (k, Lookup(ps[..n], k).value);
      assert ps[i] == ps[..n][i];
    }
  }

  /** Inserting the pairs `ps` one after the other into `d`. */
  function InsertAll<V>(d: Dict<V>, ps: seq<(string, V)>): (r: Dict<V>)
    ensures Wf(d) ==> Wf(r)
    ensures forall k :: k in r.items <==> k in d.items || Lookup(ps, k).Some?
    ensures forall k :: k in r.items ==>
      r.items[k] == if Lookup(ps, k).Some? then Lookup(ps, k).value else d.items[k]
  {
    if |ps| == 0 then d
    else Insert(InsertAll(d, ps[..|ps| - 1]), ps[|ps| - 1].0, ps[|ps| - 1].1)
  }

  /** The dict a literal or comprehension with these key/value pairs builds. */
  function FromPairs<V>(ps: seq<(string, V)>): (d: Dict<V>)
    ensures Wf(d)
    ensures forall k :: k in d.items <==> Lookup(ps, k).Some?
    ensures forall k :: k in d.items ==> d.items[k] == Lookup(ps, k).value
  {
    InsertAll(Empty(), ps)
  }

  /** `d.items()` in order. */
  function Items<V>(order: seq<string>, items: map<string, V>): (ps: seq<(string, V)>)
    requires forall k :: k in order ==> k in items
    ensures |ps| == |order|
    ensures forall i :: 0 <= i < |order| ==> ps[i] == (order[i], items[order[i]])
  {
    if |order| == 0 then []
    else
      var n := |order| - 1;
      assert forall k :: k in order[..n] ==> k in order;
      Items(order[..n], items) + [(order[n], items[order[n]])]
  }

  /** Looking a key up among the items finds its value, or nothing for a key not in the order. */
  lemma {:induction false} ItemsLookup<V>(order: seq<string>, items: map<string, V>, k: string)
    requires forall k :: k in order ==> k in items
    ensures Lookup(Items(order, items), k) == if k in order then Some(items[k]) else None
  {
    if |order| > 0 {
      var n := |order| - 1;
      assert forall j :: j in order[..n] ==> j in order;
      var ps := Items(order, items);
      assert ps[..n] == Items(order[..n], items);
      ItemsLookup(order[..n], items, k);
      assert order == order[..n] + [order[n]];
    }
  }

  /** `{**g, **c}`: every key of either, with the value of `c` where `c` has the key. */
  function Merge<V>(g: Dict<V>, c: Dict<V>): (r: Dict<V>)
    requires Wf(g) && Wf(c)
    ensures Wf(r)
    ensures forall k :: k in r.items <==> k in g.items || k in c.items
    ensures forall k :: k in c.items ==> r.items[k] == c.items[k]
    ensures forall k :: k in g.items && k !in c.items ==> r.items[k] == g.items[k]
  {
    assert forall k :: Lookup(Items(c.order, c.items), k) == if k in c.order then Some(c.items[k]) else None by {
      forall k ensures Lookup(Items(c.order, c.items), k) == if k in c.order then Some(c.items[k]) else None {
        ItemsLookup(c.order, c.items, k);
      }
    }
    InsertAll(g, Items(c.order, c.items))
  }

  /** `d.items()` with every key upper-cased. */
  function UpperItems<V>(order: seq<string>, items: map<string, V>): (ps: seq<(string, V)>)
    requires forall k :: k in order ==> k in items
    ensures |ps| == |order|
    ensures forall i :: 0 <= i < |order| ==> ps[i] == (Upper(order[i]), items[order[i]])
  {
    if |order| == 0 then []
    else
      var n := |order| - 1;
      assert forall k :: k in order[..n] ==> k in order;
      UpperItems(order[..n], items) + [(Upper(order[n]), items[order[n]])]
  }

  /** Keys that are all upper case. */
  predicate UpperKeyed<V>(d: Dict<V>)
  {
    forall k :: k in d.items ==> IsUpper(k)
  }

  /** `{k.upper(): v for k, v in d.items()}`: its keys are the upper-cased keys of
      `d`, each holding the value of a key of `d` that upper-cases to it. */
  function UpperKeys<V>(d: Dict<V>): (r: Dict<V>)
    requires Wf(d)
    ensures Wf(r) && UpperKeyed(r)
    ensures forall k :: k in d.items ==> Upper(k) in r.items
    ensures forall u :: u in r.items ==> exists k :: k in d.items && Upper(k) == u && r.items[u] == d.items[k]
  {
    var ps := UpperItems(d.order, d.items);
    UpperPairsFound(d, ps);
    FromPairs(ps)
  }

  lemma UpperPairsFound<V>(d: Dict<V>, ps: seq<(string, V)>)
    requires Wf(d) && ps == UpperItems(d.order, d.items)
    ensures forall k :: k in d.items ==> Lookup(ps, Upper(k)).Some?
    ensures forall u :: Lookup(ps, u).Some? ==>
      IsUpper(u) && exists k :: k in d.items && Upper(k) == u && Lookup(ps, u).value == d.items[k]
  {
    forall k | k in d.items ensures Lookup(ps, Upper(k)).Some? {
      var i :| 0 <= i < |d.order| && d.order[i] == k;
      LookupSomeOfMember(ps, i);
    }
    forall u | Lookup(ps, u).Some?
      ensures IsUpper(u) && exists k :: k in d.items && Upper(k) == u && Lookup(ps, u).value == d.items[k]
    {
      LookupFinds(ps, u);
      var i :| 0 <= i < |ps| && ps[i] == (u, Lookup(ps, u).value);
      assert d.order[i] in d.items;
    }
  }

  /** When several keys of `d` upper-case alike, the one latest in `d`'s order gives the value. */
  lemma UpperKeysLastWins<V>(d: Dict<V>, i: nat)
    requires Wf(d) && i < |d.order|
    requires forall j :: i < j < |d.order| ==> Upper(d.order[j]) != Upper(d.order[i])
    ensures UpperKeys(d).items[Upper(d.order[i])] == d.items[d.order[i]]
  {
    var ps := UpperItems(d.order, d.items);
    LookupAt(ps, i);
  }

  /** A key that occurs among the pairs is found by `Lookup`. */
  lemma {:induction false} LookupSomeOfMember<V>(ps: seq<(string, V)>, i: nat)
    requires i < |ps|
    ensures Lookup(ps, ps[i].0).Some?
  {
    var n := |ps| - 1;
    if i < n && ps[n].0 != ps[i].0 {
      LookupSomeOfMember(ps[..n], i);
    }
  }

  /** `Lookup` returns the value of the last pair with the key. */
  lemma {:induction false} LookupAt<V>(ps: seq<(string, V)>, i: nat)
    requires i < |ps|
    requires forall j :: i < j < |ps| ==> ps[j].0 != ps[i].0
    ensures Lookup(ps, ps[i].0) == Some(ps[i].1)
  {
    var n := |ps| - 1;
    if i < n {
      assert ps[..n][i] == ps[i];
      LookupAt(ps[..n], i);
    }
  }
}
