/** The option graph as a value: a map from keys to values in which a value
    may itself be a graph, addressed by dotted key paths
    (Sources/er/highcharts/model/KVCAExtensionGraph.java). This module holds
    the pure path-splitting, reading and writing rules; the mutable object
    that applies them is in module KVCAGraph. */
module GraphPaths {
  import opened Wrappers
  import opened Text
  import opened HighchartsFunctions

  /** What a graph node can hold. `Null` is Java's null (a `HashMap` may store
      it, and a missing key reads as it); `Graph` is a nested
      KVCAExtensionGraph; `List` is any `java.util.List`, NSArray included;
      `Other` is any object the graph rules never look inside. */
  datatype Value =
    | Null
    | Str(s: string)
    | Bool(b: bool)
    | Num(n: int)
    | List(items: seq<Value>)
    | Graph(nodes: map<string, Value>)
    | Function(f: HighchartsFunction)
    | Other(id: nat)

  /** `HashMap.get`: the stored value, or null for an absent key. */
  function Lookup(m: map<string, Value>, k: string): (v: Value)
    ensures k !in m ==> v == Null
    ensures k in m ==> v == m[k]
  {
    if k in m then m[k] else Null
  }

  /** A key path cut at its first '.': the key before it and the path after
      it, or `None` for a path with no '.'. */
  function Split(path: string): (r: Option<(string, string)>)
    ensures r.None? <==> '.' !in path
    ensures r.Some? ==> path == r.value.0 + "." + r.value.1 && '.' !in r.value.0
  {
    var i := FirstIndex(path, '.');
    FirstIndexSpec(path, '.');
    if i == |path| then None
    else
      assert path == path[..i] + "." + path[i + 1..];
      Some((path[..i], path[i + 1..]))
  }

  /** Cutting `a.b` with a dot-free `a` gives back `a` and `b`. */
  lemma SplitJoin(a: string, b: string)
    requires '.' !in a
    ensures Split(a + "." + b) == Some((a, b))
  {
    FirstIndexAfter(a, '.', b);
    var s := a + "." + b;
    assert s[..|a|] == a;
    assert s[|a| + 1..] == b;
  }

  /** The top-level key a path addresses: the part before the first '.'. */
  function Head(path: string): (h: string)
    ensures '.' !in h
    ensures '.' !in path ==> h == path
    ensures |h| <= |path|
  {
    match Split(path)
    case None => path
    case Some((h, _)) => h
  }

  /** valueForKeyPath on a graph's nodes: a dot-free path is a plain lookup;
      otherwise the head must hold a graph, which is asked for the rest of
      the path. An absent head, a list or any other value gives null (the
      branch for other key-value objects can never be taken). */
  function GetPath(m: map<string, Value>, path: string): Value
    decreases |path|
  {
    match Split(path)
    case None => Lookup(m, path)
    case Some((head, rest)) =>
      match Lookup(m, head)
      case Graph(sub) => GetPath(sub, rest)
      case _ => Null
  }

  /** takeValueForKeyPath on a graph's nodes. A dot-free path is a plain put.
      Otherwise a null head is replaced by a new empty graph, a graph head
      receives the rest of the path, and any other head is put back as it
      was, so the write is lost. */
  function PutPath(m: map<string, Value>, path: string, v: Value): (r: map<string, Value>)
    decreases |path|
  {
    match Split(path)
    case None => m[path := v]
    case Some((head, rest)) =>
      match Lookup(m, head)
      case Null => m[head := Graph(PutPath(map[], rest, v))]
      case Graph(sub) => m[head := Graph(PutPath(sub, rest, v))]
      case _ => m[head := Lookup(m, head)]
  }

  /** A dot-free path is a plain put. */
  lemma PlainPut(m: map<string, Value>, key: string, v: Value)
    requires '.' !in key
    ensures PutPath(m, key, v) == m[key := v]
  {
  }

  /** Only the head entry can change, and every key is kept. */
  lemma PutFrame(m: map<string, Value>, path: string, v: Value)
    ensures var r := PutPath(m, path, v);
      && (forall k :: k in r <==> k in m || k == Head(path))
      && (forall k :: k in m && k != Head(path) ==> r[k] == m[k])
  {
  }

  /** A write to `path` reaches its target: every head on the way is absent,
      null or a graph. */
  predicate Traversable(m: map<string, Value>, path: string)
    decreases |path|
  {
    match Split(path)
    case None => true
    case Some((head, rest)) =>
      match Lookup(m, head)
      case Null => true
      case Graph(sub) => Traversable(sub, rest)
      case _ => false
  }

  /** Reading a path right after writing it gives the written value when the
      path is traversable, and what was there before when it is not. */
  lemma {:induction false} GetAfterPut(m: map<string, Value>, path: string, v: Value)
    ensures GetPath(PutPath(m, path, v), path) == if Traversable(m, path) then v else GetPath(m, path)
    decreases |path|
  {
    if !Traversable(m, path) {
      PutBlocked(m, path, v);
    } else if Split(path).Some? {
      var (head, rest) := Split(path).value;
      TraversableBelowHead(m, head, rest);
      GetAfterPut(Below(m, head), rest, v);
      PutBelowHead(m, head, rest, v);
      GetBelowHead(PutPath(m, path, v), head, rest);
    }
  }

  /** A write whose path is blocked by a non-graph value changes nothing. */
  lemma {:induction false} PutBlocked(m: map<string, Value>, path: string, v: Value)
    requires !Traversable(m, path)
    ensures PutPath(m, path, v) == m
    decreases |path|
  {
    match Split(path)
    case None =>
    case Some((head, rest)) =>
      match Lookup(m, head)
      case Graph(sub) =>
        PutBlocked(sub, rest, v);
      case _ =>
  }

  /** A path that reads something other than null can be written. */
  lemma {:induction false} ReadableIsTraversable(m: map<string, Value>, path: string)
    requires GetPath(m, path) != Null
    ensures Traversable(m, path)
    decreases |path|
  {
    match Split(path)
    case None =>
    case Some((head, rest)) =>
      match Lookup(m, head)
      case Graph(sub) =>
        ReadableIsTraversable(sub, rest);
      case _ =>
  }

  /** Writing below `p` leaves a graph at `p`: missing intermediate nodes are
      created as empty graphs. */
  lemma {:induction false} PutVivifiesPrefix(m: map<string, Value>, p: string, q: string, v: Value)
    requires Traversable(m, p + "." + q)
    ensures GetPath(PutPath(m, p + "." + q, v), p).Graph?
    decreases |p|
  {
    match Split(p)
    case None =>
      SplitJoin(p, q);
      PutBelowHead(m, p, q, v);
    case Some((h, r)) =>
      DotAssoc(h, r, q);
      TraversableBelowHead(m, h, r + "." + q);
      PutVivifiesPrefix(Below(m, h), r, q, v);
      VivifyBelowHead(m, h, r, q, v);
  }

  /** Joining three path segments does not depend on the grouping. */
  lemma DotAssoc(h: string, r: string, q: string)
    ensures (h + "." + r) + "." + q == h + "." + (r + "." + q)
  {
  }

  /** One step of the above: a graph left at `r` below head `h` is a graph
      left at `h.r`. */
  lemma VivifyBelowHead(m: map<string, Value>, h: string, r: string, q: string, v: Value)
    requires '.' !in h && (Lookup(m, h).Null? || Lookup(m, h).Graph?)
    requires GetPath(PutPath(Below(m, h), r + "." + q, v), r).Graph?
    ensures GetPath(PutPath(m, h + "." + (r + "." + q), v), h + "." + r).Graph?
  {
    PutBelowHead(m, h, r + "." + q, v);
    GetBelowHead(PutPath(m, h + "." + (r + "." + q), v), h, r);
  }

  /** What a write below head `h` starts from: `h`'s graph, or a new empty
      graph. */
  function Below(m: map<string, Value>, h: string): map<string, Value>
  {
    if Lookup(m, h).Graph? then Lookup(m, h).nodes else map[]
  }

  /** Every path of an empty graph can be written. */
  lemma EmptyTraversable(path: string)
    ensures Traversable(map[], path)
  {
    if Split(path).Some? {
      assert Lookup(map[], Split(path).value.0) == Null;
    }
  }

  /** A path below a dot-free head can be written exactly when the head holds
      nothing or a graph and the rest can be written from there. */
  lemma TraversableBelowHead(m: map<string, Value>, h: string, rest: string)
    requires '.' !in h
    ensures Traversable(m, h + "." + rest) <==>
      (Lookup(m, h).Null? || Lookup(m, h).Graph?) && Traversable(Below(m, h), rest)
  {
    SplitJoin(h, rest);
    EmptyTraversable(rest);
  }

  /** Below a value that is not a graph nothing can be read: every longer path
      reads null. */
  lemma {:induction false} GetBelowLeaf(m: map<string, Value>, p: string, q: string)
    requires !GetPath(m, p).Graph?
    ensures GetPath(m, p + "." + q) == Null
    decreases |p|
  {
    match Split(p)
    case None =>
      SplitJoin(p, q);
    case Some((h, r)) =>
      assert p + "." + q == h + "." + (r + "." + q);
      SplitJoin(h, r + "." + q);
      match Lookup(m, h)
      case Graph(sub) =>
        GetBelowLeaf(sub, r, q);
      case _ =>
  }

  /** Two paths that part ways: their heads differ, or both go on below the
      same head and their remainders part ways. Neither is a prefix of the
      other. */
  predicate Disjoint(p: string, q: string)
    decreases |p|
  {
    match (Split(p), Split(q))
    case (Some((hp, rp)), Some((hq, rq))) => hp != hq || Disjoint(rp, rq)
    case _ => Head(p) != Head(q)
  }

  /** A write at one path never changes what is read at a path disjoint
      from it. */
  lemma {:induction false} PutKeepsDisjoint(m: map<string, Value>, p: string, q: string, v: Value)
    requires Disjoint(p, q)
    ensures GetPath(PutPath(m, p, v), q) == GetPath(m, q)
    decreases |p|
  {
    if Head(p) != Head(q) {
      PutOtherHead(m, p, q, v);
    } else {
      var (h, rp) := Split(p).value;
      var (_, rq) := Split(q).value;
      PutKeepsDisjoint(Below(m, h), rp, rq, v);
      DisjointBelowHead(m, h, rp, rq, v);
    }
  }

  /** One step of the above: paths that part ways below head `h` part ways
      from `h`. */
  lemma DisjointBelowHead(m: map<string, Value>, h: string, rp: string, rq: string, v: Value)
    requires '.' !in h
    requires GetPath(PutPath(Below(m, h), rp, v), rq) == GetPath(Below(m, h), rq)
    ensures GetPath(PutPath(m, h + "." + rp, v), h + "." + rq) == GetPath(m, h + "." + rq)
  {
    PutBelowHead(m, h, rp, v);
    GetBelowHead(PutPath(m, h + "." + rp, v), h, rq);
    GetBelowHead(m, h, rq);
    if Lookup(m, h).Null? {
      EmptyReadsNull(rq);
    }
  }

  /** An empty graph reads null at every path. */
  lemma EmptyReadsNull(path: string)
    ensures GetPath(map[], path) == Null
  {
    if Split(path).Some? {
      assert Lookup(map[], Split(path).value.0) == Null;
    }
  }

  /** What a path reads depends only on the entry at its head. */
  lemma GetThroughHead(m1: map<string, Value>, m2: map<string, Value>, path: string)
    requires Lookup(m1, Head(path)) == Lookup(m2, Head(path))
    ensures GetPath(m1, path) == GetPath(m2, path)
  {
  }

  /** Traversability of a path depends only on the entry at its head. */
  lemma TraversableThroughHead(m1: map<string, Value>, m2: map<string, Value>, path: string)
    requires Lookup(m1, Head(path)) == Lookup(m2, Head(path))
    ensures Traversable(m1, path) <==> Traversable(m2, path)
  {
  }

  /** A write under one head changes nothing under another: the entry there,
      what every path below it reads, and whether such a path can be
      written. */
  lemma PutOtherHead(m: map<string, Value>, p: string, q: string, v: Value)
    requires Head(p) != Head(q)
    ensures var r := PutPath(m, p, v);
      && Lookup(r, Head(q)) == Lookup(m, Head(q))
      && GetPath(r, q) == GetPath(m, q)
      && (Traversable(r, q) <==> Traversable(m, q))
  {
    var r := PutPath(m, p, v);
    PutFrame(m, p, v);
    assert Lookup(r, Head(q)) == Lookup(m, Head(q));
    GetThroughHead(r, m, q);
    TraversableThroughHead(r, m, q);
  }

  /** In a fresh graph every path can be written and reads back what was
      written, whatever the value (a string, a list, a graph). */
  lemma FreshGraphRoundTrip(path: string, v: Value)
    ensures GetPath(PutPath(map[], path, v), path) == v
  {
    assert Traversable(map[], path) by {
      if Split(path).Some? {
        assert Lookup(map[], Split(path).value.0) == Null;
      }
    }
    GetAfterPut(map[], path, v);
  }

  /** Writing a shorter path over a subtree built by a longer one replaces
      the subtree: the shorter path reads the new value and, when that value
      is not a graph, the longer path reads null. */
  lemma ShorterPathReplacesSubtree(m: map<string, Value>, p: string, q: string, deep: Value, v: Value)
    requires Traversable(m, p + "." + q)
    ensures var m2 := PutPath(PutPath(m, p + "." + q, deep), p, v);
      && GetPath(m2, p) == v
      && (!v.Graph? ==> GetPath(m2, p + "." + q) == Null)
  {
    var m1 := PutPath(m, p + "." + q, deep);
    PutVivifiesPrefix(m, p, q, deep);
    ReadableIsTraversable(m1, p);
    GetAfterPut(m1, p, v);
    var m2 := PutPath(m1, p, v);
    if !v.Graph? {
      GetBelowLeaf(m2, p, q);
    }
  }

  /** Writing below a dot-free head `a`: into a new graph when `a` holds
      nothing, into `a`'s graph when it holds one, nowhere otherwise. */
  lemma PutBelowHead(m: map<string, Value>, a: string, rest: string, v: Value)
    requires '.' !in a
    ensures Lookup(m, a).Null? ==> PutPath(m, a + "." + rest, v) == m[a := Graph(PutPath(map[], rest, v))]
    ensures Lookup(m, a).Graph? ==> PutPath(m, a + "." + rest, v) == m[a := Graph(PutPath(Lookup(m, a).nodes, rest, v))]
    ensures !Lookup(m, a).Null? && !Lookup(m, a).Graph? ==> PutPath(m, a + "." + rest, v) == m
  {
    SplitJoin(a, rest);
  }

  /** Reading below a dot-free head `a`: the rest of the path in `a`'s graph,
      or null. */
  lemma GetBelowHead(m: map<string, Value>, a: string, rest: string)
    requires '.' !in a
    ensures GetPath(m, a + "." + rest) == if Lookup(m, a).Graph? then GetPath(Lookup(m, a).nodes, rest) else Null
  {
    SplitJoin(a, rest);
  }

  /** Writing `a.c` with dot-free keys: into a new graph when `a` holds
      nothing, into `a`'s graph when it holds one, nowhere otherwise. */
  lemma PutTwoLevel(m: map<string, Value>, a: string, c: string, v: Value)
    requires '.' !in a && '.' !in c
    ensures Lookup(m, a).Null? ==> PutPath(m, a + "." + c, v) == m[a := Graph(map[c := v])]
    ensures Lookup(m, a).Graph? ==> PutPath(m, a + "." + c, v) == m[a := Graph(Lookup(m, a).nodes[c := v])]
    ensures !Lookup(m, a).Null? && !Lookup(m, a).Graph? ==> PutPath(m, a + "." + c, v) == m
  {
    SplitJoin(a, c);
  }

  /** Reading `a.c` with dot-free keys: `c` in `a`'s graph, or null. */
  lemma GetTwoLevel(m: map<string, Value>, a: string, c: string)
    requires '.' !in a && '.' !in c
    ensures GetPath(m, a + "." + c) == if Lookup(m, a).Graph? then Lookup(Lookup(m, a).nodes, c) else Null
  {
    SplitJoin(a, c);
  }

  /** Writing `a.c` where `a` holds nothing or a graph leaves a graph at `a`
      in which `c` reads the value written. */
  lemma TwoLevelRoundTrip(m: map<string, Value>, a: string, c: string, v: Value)
    requires '.' !in a && '.' !in c
    requires Lookup(m, a).Null? || Lookup(m, a).Graph?
    ensures Lookup(PutPath(m, a + "." + c, v), a).Graph?
    ensures GetPath(PutPath(m, a + "." + c, v), a + "." + c) == v
  {
    PutTwoLevel(m, a, c, v);
    GetTwoLevel(PutPath(m, a + "." + c, v), a, c);
  }

  /** Writing `a.c` leaves `a.d` as it read, for another dot-free key `d`. */
  lemma TwoLevelSiblingKeeps(m: map<string, Value>, a: string, c: string, d: string, v: Value)
    requires '.' !in a && '.' !in c && '.' !in d && c != d
    ensures GetPath(PutPath(m, a + "." + c, v), a + "." + d) == GetPath(m, a + "." + d)
  {
    PutTwoLevel(m, a, c, v);
    GetTwoLevel(PutPath(m, a + "." + c, v), a, d);
    GetTwoLevel(m, a, d);
  }
}
