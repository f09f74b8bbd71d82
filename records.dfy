/** The bound series objects the components read from, and the per-object
    list building shared by buildSeries
    (Sources/er/highcharts/components/ERHighchartComponent.java:171-190) and
    the pie chart's wedge loop
    (Sources/er/highcharts/components/chart/ERPieChart.java:79-100). */
module Records {
  import opened Wrappers
  import opened GraphPaths

  /** An exception that escapes a graph-building operation. */
  datatype Thrown =
    | UnknownKey(path: string)   // a series object asked for a key path it does not know
    | ClassCast(path: string)    // a graph entry of the wrong type for a cast

  /** A bound series object, asked for values by key path. A key-value
      object answers the paths it knows and throws for any other; a graph
      answers every path, with null where there is nothing. */
  datatype Record =
    | KeyValueObject(answers: map<string, Value>)
    | GraphRecord(nodes: map<string, Value>)

  /** `obj.valueForKeyPath(path)`. */
  function ReadPath(obj: Record, path: string): Result<Value, Thrown>
  {
    match obj
    case KeyValueObject(answers) =>
      if path in answers then Success(answers[path]) else Failure(UnknownKey(path))
    case GraphRecord(nodes) => Success(GetPath(nodes, path))
  }

  /** One graph per object, in input order, each built by `entry`; building
      stops at the first object whose entry throws. */
  function EntryList(entry: Record -> Result<map<string, Value>, Thrown>, objs: seq<Record>): Result<seq<Value>, Thrown>
    decreases |objs|
  {
    if objs == [] then Success([])
    else
      var n := |objs| - 1;
      match EntryList(entry, objs[..n])
      case Failure(e) => Failure(e)
      case Success(items) =>
        match entry(objs[n])
        case Failure(e) => Failure(e)
        case Success(s) => Success(items + [Graph(s)])
  }

  /** The list succeeds exactly when every object's entry does, and then
      holds exactly those entries in input order; otherwise its exception is
      that of the first object whose entry throws. */
  lemma {:induction false} EntryListSpec(entry: Record -> Result<map<string, Value>, Thrown>, objs: seq<Record>)
    ensures var r := EntryList(entry, objs);
      && (r.Success? <==> forall i :: 0 <= i < |objs| ==> entry(objs[i]).Success?)
      && (r.Success? ==>
            && |r.value| == |objs|
            && forall i :: 0 <= i < |objs| ==> r.value[i] == Graph(entry(objs[i]).value))
      && (r.Failure? ==>
            exists i :: 0 <= i < |objs| && entry(objs[i]).Failure?
              && r.error == entry(objs[i]).error
              && forall j :: 0 <= j < i ==> entry(objs[j]).Success?)
    decreases |objs|
  {
    if objs != [] {
      var n := |objs| - 1;
      var prefix := objs[..n];
      EntryListSpec(entry, prefix);
      assert forall i :: 0 <= i < n ==> prefix[i] == objs[i];
      var r := EntryList(entry, objs);
      if EntryList(entry, prefix).Failure? {
        var i :| 0 <= i < n && entry(prefix[i]).Failure?
              && EntryList(entry, prefix).error == entry(prefix[i]).error
              && forall j :: 0 <= j < i ==> entry(prefix[j]).Success?;
        assert r.error == entry(objs[i]).error;
      } else if entry(objs[n]).Failure? {
        assert r.error == entry(objs[n]).error;
      }
    }
  }

  /** One more object extends a successful list by its entry, or fails with
      the entry's exception. */
  lemma EntryListStep(entry: Record -> Result<map<string, Value>, Thrown>, objs: seq<Record>, i: nat)
    requires i < |objs| && EntryList(entry, objs[..i]).Success?
    ensures var next := EntryList(entry, objs[..i + 1]);
      var e := entry(objs[i]);
      && (e.Failure? ==> next == Failure(e.error))
      && (e.Success? ==> next == Success(EntryList(entry, objs[..i]).value + [Graph(e.value)]))
  {
    assert objs[..i + 1][..i] == objs[..i];
  }

  /** A failure among the first `n` objects is the failure of the whole list. */
  lemma {:induction false} PrefixFailure(entry: Record -> Result<map<string, Value>, Thrown>, objs: seq<Record>, n: nat)
    requires n <= |objs| && EntryList(entry, objs[..n]).Failure?
    ensures EntryList(entry, objs) == EntryList(entry, objs[..n])
    decreases |objs| - n
  {
    if n < |objs| {
      assert objs[..n + 1][..n] == objs[..n];
      PrefixFailure(entry, objs, n + 1);
    } else {
      assert objs[..n] == objs;
    }
  }

  /** Two entry builders that agree on every object build the same list. */
  lemma {:induction false} EntryListAgree(f: Record -> Result<map<string, Value>, Thrown>,
                                          g: Record -> Result<map<string, Value>, Thrown>, objs: seq<Record>)
    requires forall i :: 0 <= i < |objs| ==> f(objs[i]) == g(objs[i])
    ensures EntryList(f, objs) == EntryList(g, objs)
    decreases |objs|
  {
    if objs != [] {
      var n := |objs| - 1;
      assert forall i :: 0 <= i < n ==> objs[..n][i] == objs[i];
      EntryListAgree(f, g, objs[..n]);
    }
  }
}
