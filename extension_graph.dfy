/** KVCAExtensionGraph (Sources/er/highcharts/model/KVCAExtensionGraph.java):
    a mutable object whose `nodes` map is updated in place by key and by
    dotted key path, and which can take another graph's entries as an
    overlay. Nested graphs are held as values (see module GraphPaths). */
module KVCAGraph {
  import opened Wrappers
  import opened GraphPaths
  import opened Overlay

  class KVCAExtensionGraph {
    /** The entries of this graph. */
    var nodes: map<string, Value>

    /** A new graph is empty. */
    constructor()
      ensures nodes == map[]
    {
      nodes := map[];
    }

    /** Stores `value` under `key`, dots and all, replacing what was there. */
    method TakeValueForKey(value: Value, key: string)
      modifies this
      ensures nodes == old(nodes)[key := value]
    {
      nodes := nodes[key := value];
    }

    /** The value stored under `key`, or null when there is none. */
    function ValueForKey(key: string): (r: Value)
      reads this
      ensures key in nodes ==> r == nodes[key]
      ensures key !in nodes ==> r == Null
    {
      Lookup(nodes, key)
    }

    /** Sets a value by dotted path; `None` is a null path and does nothing.
        A dot-free path is stored directly. Otherwise the head entry is
        fetched, replaced by a new empty graph when null, handed the rest of
        the path when it is a graph, and put back under the head. */
    method TakeValueForKeyPath(value: Value, keyPath: Option<string>)
      modifies this
      ensures keyPath.None? ==> nodes == old(nodes)
      ensures keyPath.Some? ==> nodes == PutPath(old(nodes), keyPath.value, value)
    {
      if keyPath.None? {
        return;
      }
      var path := keyPath.value;
      match Split(path)
      case None =>
        TakeValueForKey(value, path);
      case Some((key, nextPath)) =>
        var localObject := Lookup(nodes, key);
        if localObject.Null? {
          localObject := Graph(map[]);
        }
        if localObject.Graph? {
          localObject := Graph(PutPath(localObject.nodes, nextPath, value));
        }
        nodes := nodes[key := localObject];
    }

    /** Reads a value by dotted path; `None` is a null path and reads null. */
    function ValueForKeyPath(keyPath: Option<string>): (r: Value)
      reads this
      ensures keyPath.None? ==> r == Null
      ensures keyPath.Some? ==> r == GetPath(nodes, keyPath.value)
    {
      match keyPath
      case None => Null
      case Some(path) => GetPath(nodes, path)
    }

    /** Writes every entry of `supp` into this graph by path, each key read
        from `supp` as a path. `null` does nothing. The returned `order` is the
        order the keys were visited in: any enumeration of `supp`'s keys. */
    method Apply(supp: KVCAExtensionGraph?) returns (ghost order: seq<string>)
      modifies this
      ensures supp == null ==> nodes == old(nodes) && order == []
      ensures supp != null ==>
        && IsEnumeration(order, old(supp.nodes).Keys)
        && nodes == ApplyKeys(old(nodes), old(supp.nodes), order)
    {
      order := [];
      if supp == null {
        return;
      }
      var source := supp.nodes;
      ghost var base := nodes;
      var keys := source.Keys;
      while keys != {}
        invariant keys <= source.Keys
        invariant forall k :: k in source.Keys ==> k in keys || k in order
        invariant forall k :: k in order ==> k in source.Keys && k !in keys
        invariant Distinct(order)
        invariant nodes == ApplyKeys(base, source, order)
        decreases |keys|
      {
        var key :| key in keys;
        TakeValueForKeyPath(GetPath(source, key), Some(key));
        assert (order + [key])[..|order|] == order;
        order := order + [key];
        keys := keys - {key};
      }
    }
  }
}
