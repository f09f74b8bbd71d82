/** The one-level overlay `apply(supp)`
    (Sources/er/highcharts/model/KVCAExtensionGraph.java:177-187): every key of
    the overlay is read from the overlay as a path and written to the base at
    the same path. The order in which a `HashMap` hands out its keys is not
    specified, so the overlay is modelled as a fold over any enumeration of
    the keys, and every property below holds for all of them. */
module Overlay {
  import opened Wrappers
  import opened GraphPaths

  /** No key occurs twice. */
  predicate Distinct(order: seq<string>)
  {
    forall i, j :: 0 <= i < j < |order| ==> order[i] != order[j]
  }

  /** `order` lists every key of the set exactly once. */
  predicate IsEnumeration(order: seq<string>, keys: set<string>)
  {
    && (forall k :: k in order ==> k in keys)
    && (forall k :: k in keys ==> k in order)
    && Distinct(order)
  }

  /** The base after the overlay's keys, in `order`, have each been written
      with what the overlay reads at that key. */
  function ApplyKeys(base: map<string, Value>, supp: map<string, Value>, order: seq<string>): map<string, Value>
    decreases |order|
  {
    if order == [] then base
    else
      var k := order[|order| - 1];
      PutPath(ApplyKeys(base, supp, order[..|order| - 1]), k, GetPath(supp, k))
  }

  /** A base entry whose key is the head of no overlay key is left as it was
      (present with the same value, or absent). */
  lemma {:induction false} ApplyKeeps(base: map<string, Value>, supp: map<string, Value>, order: seq<string>, h: string)
    requires forall k :: k in order ==> Head(k) != h
    ensures var r := ApplyKeys(base, supp, order);
      && (h in r <==> h in base)
      && Lookup(r, h) == Lookup(base, h)
    decreases |order|
  {
    if order != [] {
      var prefix := order[..|order| - 1];
      var k := order[|order| - 1];
      ApplyKeeps(base, supp, prefix, h);
      PutFrame(ApplyKeys(base, supp, prefix), k, GetPath(supp, k));
    }
  }

  /** Every overlay key's head is present after the overlay. */
  lemma {:induction false} ApplyAddsHeads(base: map<string, Value>, supp: map<string, Value>, order: seq<string>, j: string)
    requires j in order
    ensures Head(j) in ApplyKeys(base, supp, order)
    decreases |order|
  {
    var prefix := order[..|order| - 1];
    var k := order[|order| - 1];
    PutFrame(ApplyKeys(base, supp, prefix), k, GetPath(supp, k));
    if j != k {
      assert j in prefix by {
        var i :| 0 <= i < |order| && order[i] == j;
        assert prefix[i] == j;
      }
      ApplyAddsHeads(base, supp, prefix, j);
    }
  }

  /** A dot-free overlay key that no other overlay key passes through ends
      with the overlay's own value: its whole subtree replaces the base's. */
  lemma {:induction false} ApplyReplaces(base: map<string, Value>, supp: map<string, Value>, order: seq<string>, k: string)
    requires k in order && '.' !in k
    requires forall j :: j in order && j != k ==> Head(j) != k
    ensures var r := ApplyKeys(base, supp, order);
      k in r && r[k] == Lookup(supp, k)
    decreases |order|
  {
    var prefix := order[..|order| - 1];
    var last := order[|order| - 1];
    var acc := ApplyKeys(base, supp, prefix);
    PutFrame(acc, last, GetPath(supp, last));
    if last != k {
      assert k in prefix by {
        var i :| 0 <= i < |order| && order[i] == k;
        assert prefix[i] == k;
      }
      assert forall j :: j in prefix ==> j in order;
      ApplyReplaces(base, supp, prefix, k);
    }
  }

  /** Below such a key, every path reads what it reads in the overlay. */
  lemma ApplyReplacesSubtree(base: map<string, Value>, supp: map<string, Value>, order: seq<string>, k: string, path: string)
    requires k in order && '.' !in k && Head(path) == k
    requires forall j :: j in order && j != k ==> Head(j) != k
    ensures GetPath(ApplyKeys(base, supp, order), path) == GetPath(supp, path)
  {
    ApplyReplaces(base, supp, order, k);
    GetThroughHead(ApplyKeys(base, supp, order), supp, path);
  }

  /** With only dot-free keys the overlay is a plain `putAll`: the base with
      every overlay entry replacing the base's, whatever the key order. */
  lemma ApplyPlainIsUnion(base: map<string, Value>, supp: map<string, Value>, order: seq<string>)
    requires IsEnumeration(order, supp.Keys)
    requires forall k :: k in supp ==> '.' !in k
    ensures ApplyKeys(base, supp, order) == base + supp
  {
    var r := ApplyKeys(base, supp, order);
    forall k | k in supp
      ensures k in r && r[k] == supp[k]
    {
      ApplyReplaces(base, supp, order, k);
    }
    forall h | h !in supp
      ensures (h in r <==> h in base) && Lookup(r, h) == Lookup(base, h)
    {
      ApplyKeeps(base, supp, order, h);
    }
    assert r.Keys == (base + supp).Keys;
  }

  /** An overlay holding one value written at one path, into a fresh graph,
      makes that path read the value in any base, whatever the base held
      there. */
  lemma ApplyFreshOverlayWins(base: map<string, Value>, path: string, v: Value, order: seq<string>)
    requires IsEnumeration(order, PutPath(map[], path, v).Keys)
    ensures GetPath(ApplyKeys(base, PutPath(map[], path, v), order), path) == v
  {
    var supp := PutPath(map[], path, v);
    var k := Head(path);
    PutFrame(map[], path, v);
    assert supp.Keys == {k};
    ApplyReplacesSubtree(base, supp, order, k, path);
    FreshGraphRoundTrip(path, v);
  }

  /** `apply` with a possibly-null overlay: null leaves the base as it is. */
  function ApplyBound(base: map<string, Value>, bound: Option<map<string, Value>>, order: seq<string>): map<string, Value>
  {
    match bound
    case None => base
    case Some(supp) => ApplyKeys(base, supp, order)
  }

  /** `order` is a possible key order for the overlay: empty for null. */
  predicate Enumerates(order: seq<string>, bound: Option<map<string, Value>>)
  {
    match bound
    case None => order == []
    case Some(supp) => IsEnumeration(order, supp.Keys)
  }

  /** The overlay's key heads, none for a null overlay. */
  predicate TouchesHead(bound: Option<map<string, Value>>, h: string)
  {
    bound.Some? && exists k :: k in bound.value && Head(k) == h
  }

  /** An entry of the base whose key no overlay key passes through survives
      the overlay (null overlay included). */
  lemma ApplyBoundKeeps(base: map<string, Value>, bound: Option<map<string, Value>>, order: seq<string>, h: string)
    requires Enumerates(order, bound) && !TouchesHead(bound, h)
    ensures var r := ApplyBound(base, bound, order);
      && (h in r <==> h in base)
      && Lookup(r, h) == Lookup(base, h)
  {
    if bound.Some? {
      ApplyKeeps(base, bound.value, order, h);
    }
  }

  /** A top-level overlay entry that no other overlay key passes through
      replaces the base's entry wholesale. */
  lemma ApplyBoundReplaces(base: map<string, Value>, supp: map<string, Value>, order: seq<string>, k: string)
    requires IsEnumeration(order, supp.Keys)
    requires k in supp && '.' !in k
    requires forall j :: j in supp && j != k ==> Head(j) != k
    ensures var r := ApplyBound(base, Some(supp), order);
      k in r && r[k] == supp[k]
  {
    ApplyReplaces(base, supp, order, k);
  }

  /** A path whose head no overlay key passes through reads the same after
      the overlay as before it. */
  lemma OverlayKeepsPath(base: map<string, Value>, bound: Option<map<string, Value>>, order: seq<string>, path: string)
    requires Enumerates(order, bound) && !TouchesHead(bound, Head(path))
    ensures GetPath(ApplyBound(base, bound, order), path) == GetPath(base, path)
  {
    ApplyBoundKeeps(base, bound, order, Head(path));
    GetThroughHead(ApplyBound(base, bound, order), base, path);
  }

  /** A top-level overlay entry that no other overlay key passes through
      decides every path below it: such a path reads what the overlay reads. */
  lemma OverlayDecidesHead(base: map<string, Value>, supp: map<string, Value>, order: seq<string>, path: string)
    requires IsEnumeration(order, supp.Keys)
    requires Head(path) in supp
    requires forall j :: j in supp && j != Head(path) ==> Head(j) != Head(path)
    ensures var r := ApplyBound(base, Some(supp), order);
      && Head(path) in r && r[Head(path)] == supp[Head(path)]
      && GetPath(r, path) == GetPath(supp, path)
  {
    ApplyReplaces(base, supp, order, Head(path));
    ApplyReplacesSubtree(base, supp, order, Head(path), path);
  }
}
