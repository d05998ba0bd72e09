/**
 * The work-to-do resolution of pipeline/aws_chiles02/generate_stats_graph.py:
 * every uvsub tar file under the input directory names a day and a
 * frequency pair, and becomes a work item unless its statistics row is
 * already recorded.
 */
module StatsGraph {
  import opened Wrappers
  import opened Text

  /** [elements[2], frequencies[0], frequencies[1]]: a day and the two frequency bounds, as text. */
  datatype WorkItem = WorkItem(day: string, low: string, high: string)

  predicate IsTar(key: string) {
    EndsWith(key, ".tar")
  }

  /**
   * The work item a tar key names: key.split('/') gives the elements,
   * elements[1].split('_') the frequencies. Too few of either raises
   * IndexError.
   */
  function ItemOf(key: string): (r: Result<WorkItem, string>)
    ensures r.Err? ==> r.error == "IndexError"
  {
    var elements := Split(key, '/');
    if |elements| < 2 then Err("IndexError")
    else
      var frequencies := Split(elements[1], '_');
      if |elements| < 3 || |frequencies| < 2 then Err("IndexError")
      else Ok(WorkItem(elements[2], frequencies[0], frequencies[1]))
  }

  /** '{0} {1} {2} {3}'.format(input_dir, day, min, max): the statistics row a work item would produce. */
  function ExpectedName(inputDir: string, item: WorkItem): string
  {
    inputDir + " " + item.day + " " + item.low + " " + item.high
  }

  /** What scanning a run of keys does: the items it appends, and whether it stopped on an IndexError. */
  datatype Scan = Scan(added: seq<WorkItem>, failed: bool)

  /**
   * The second loop of calculate_work_to_do over the keys, in order:
   * a .tar key adds its item unless its row is among `doneRows`; any
   * other key is skipped; the first malformed .tar key stops the scan.
   */
  function ScanKeys(inputDir: string, doneRows: set<string>, keys: seq<string>): (r: Scan)
    ensures |r.added| <= |keys|
  {
    if keys == [] then Scan([], false)
    else
      var prev := ScanKeys(inputDir, doneRows, keys[..|keys| - 1]);
      var key := keys[|keys| - 1];
      if prev.failed || !IsTar(key) then prev
      else match ItemOf(key)
        case Err(_) => Scan(prev.added, true)
        case Ok(item) => if ExpectedName(inputDir, item) in doneRows then prev else Scan(prev.added + [item], false)
  }

  /** The class of the same name: the listing it reads and the work list it builds. */
  class WorkToDo {
    var inputDir: string
    var bucketName: string
    var workToDo: seq<WorkItem>

    /** A new WorkToDo has an empty work list. */
    constructor(inputDir: string, bucketName: string)
      ensures this.inputDir == inputDir && this.bucketName == bucketName && workToDo == []
    {
      this.inputDir := inputDir;
      this.bucketName := bucketName;
      workToDo := [];
    }

    /**
     * calculate_work_to_do, given the keys the bucket lists under the input
     * directory and the statistics rows already recorded (the source reads
     * them from a name it never binds). Returns the exception raised, if
     * any; the items appended before it stay in the list.
     */
    method CalculateWorkToDo(keys: seq<string>, visstatDataRows: set<string>) returns (raised: Option<string>)
      modifies this
      ensures inputDir == old(inputDir) && bucketName == old(bucketName)
      ensures workToDo == old(workToDo) + ScanKeys(inputDir, visstatDataRows, keys).added
      ensures raised.Some? <==> ScanKeys(inputDir, visstatDataRows, keys).failed
      ensures raised.Some? ==> raised.value == "IndexError"
    {
      raised := None;
      var i := 0;
      while i < |keys|
        invariant 0 <= i <= |keys| && raised.None?
        invariant inputDir == old(inputDir) && bucketName == old(bucketName)
        invariant !ScanKeys(inputDir, visstatDataRows, keys[..i]).failed
        invariant workToDo == old(workToDo) + ScanKeys(inputDir, visstatDataRows, keys[..i]).added
      {
        var key := keys[i];
        assert keys[..i + 1][..i] == keys[..i];
        if IsTar(key) {
          var item := ItemOf(key);
          if item.Err? {
            raised := Some(item.error);
            ScanStops(inputDir, visstatDataRows, keys, i + 1);
            return;
          }
          if ExpectedName(inputDir, item.value) !in visstatDataRows {
            workToDo := workToDo + [item.value];
          }
        }
        i := i + 1;
      }
      assert keys[..i] == keys;
    }
  }

  /** Once a scan has failed, more keys change nothing. */
  lemma {:induction false} ScanStops(inputDir: string, doneRows: set<string>, keys: seq<string>, n: nat)
    requires n <= |keys| && ScanKeys(inputDir, doneRows, keys[..n]).failed
    ensures ScanKeys(inputDir, doneRows, keys) == ScanKeys(inputDir, doneRows, keys[..n])
    decreases |keys| - n
  {
    if n < |keys| {
      assert keys[..n + 1][..n] == keys[..n];
      ScanStops(inputDir, doneRows, keys, n + 1);
    } else {
      assert keys[..n] == keys;
    }
  }

  /** The .tar keys of a listing, in order. */
  function TarKeys(keys: seq<string>): (r: seq<string>)
    ensures forall k :: k in r <==> k in keys && IsTar(k)
  {
    if keys == [] then []
    else TarKeys(keys[..|keys| - 1]) + (if IsTar(keys[|keys| - 1]) then [keys[|keys| - 1]] else [])
  }

  /** Keys not ending in .tar (the .csv files among them) never change the outcome. */
  lemma {:induction false} OnlyTarKeysMatter(inputDir: string, doneRows: set<string>, keys: seq<string>)
    ensures ScanKeys(inputDir, doneRows, keys) == ScanKeys(inputDir, doneRows, TarKeys(keys))
  {
    if keys != [] {
      var init, key := keys[..|keys| - 1], keys[|keys| - 1];
      OnlyTarKeysMatter(inputDir, doneRows, init);
      var t := TarKeys(keys);
      if IsTar(key) {
        assert t == TarKeys(init) + [key];
        assert t[..|t| - 1] == TarKeys(init) && t[|t| - 1] == key;
      } else {
        assert t == TarKeys(init);
      }
    }
  }

  /**
   * Scanning is done key by key, appending and never removing: the
   * items of a listing are those of its first part followed by those of
   * the rest, duplicates kept.
   */
  lemma {:induction false} ScanAppend(inputDir: string, doneRows: set<string>, a: seq<string>, b: seq<string>)
    requires !ScanKeys(inputDir, doneRows, a).failed
    ensures ScanKeys(inputDir, doneRows, a + b).added ==
      ScanKeys(inputDir, doneRows, a).added + ScanKeys(inputDir, doneRows, b).added
    ensures ScanKeys(inputDir, doneRows, a + b).failed == ScanKeys(inputDir, doneRows, b).failed
    decreases |b|
  {
    if b == [] {
      assert a + b == a;
    } else {
      var b' := b[..|b| - 1];
      assert (a + b)[..|a + b| - 1] == a + b';
      ScanAppend(inputDir, doneRows, a, b');
    }
  }

  /**
   * A scan that does not fail adds an item exactly when some .tar key of
   * the listing names it and its statistics row is not recorded.
   */
  lemma {:induction false} ScanAddsExactly(inputDir: string, doneRows: set<string>, keys: seq<string>, item: WorkItem)
    requires !ScanKeys(inputDir, doneRows, keys).failed
    ensures item in ScanKeys(inputDir, doneRows, keys).added <==>
      ExpectedName(inputDir, item) !in doneRows && exists k :: k in keys && IsTar(k) && ItemOf(k) == Ok(item)
  {
    if keys != [] {
      var init, key := keys[..|keys| - 1], keys[|keys| - 1];
      ScanAddsExactly(inputDir, doneRows, init, item);
      assert keys == init + [key];
      if (exists k :: k in keys && IsTar(k) && ItemOf(k) == Ok(item)) && !(exists k :: k in init && IsTar(k) && ItemOf(k) == Ok(item)) {
        assert IsTar(key) && ItemOf(key) == Ok(item);
      }
    }
  }

  /** A scan fails exactly when the listing holds a .tar key too short to name an item. */
  lemma {:induction false} ScanFailsExactly(inputDir: string, doneRows: set<string>, keys: seq<string>)
    ensures ScanKeys(inputDir, doneRows, keys).failed <==> exists k :: k in keys && IsTar(k) && ItemOf(k).Err?
  {
    if keys != [] {
      var init, key := keys[..|keys| - 1], keys[|keys| - 1];
      ScanFailsExactly(inputDir, doneRows, init);
      assert keys == init + [key];
    }
  }

  /**
   * A key laid out as the uvsub files are, '<dir>/<min>_<max>/<day>/<file>',
   * names the work item (day, min, max).
   */
  lemma ItemOfLayout(dir: string, low: string, high: string, day: string, file: string)
    requires '/' !in dir && '/' !in low && '/' !in high && '/' !in day
    requires '_' !in low && '_' !in high
    ensures ItemOf(dir + "/" + ((low + "_" + high) + "/" + (day + "/" + file))) == Ok(WorkItem(day, low, high))
  {
    var pair := low + "_" + high;
    assert '/' !in pair;
    var tail := day + "/" + file;
    var rest := pair + "/" + tail;
    SplitAfterHead(day, file, '/');
    SplitAfterHead(pair, tail, '/');
    SplitAfterHead(dir, rest, '/');
    var elements := Split(dir + "/" + rest, '/');
    assert elements[1] == pair && elements[2] == day;
    SplitAfterHead(low, high, '_');
    SplitNoSeparator(high, '_');
  }

  /** One entry of the nodes list: how many instances of which type, at what spot price. */
  datatype NodeRequest<P> = NodeRequest(numberInstances: int, instanceType: string, spotPrice: P)

  /** get_nodes_required: one request for node_count i2.2xlarge instances, and node_count unchanged. */
  function GetNodesRequired<P>(nodeCount: int, spotPrice: P): (r: (seq<NodeRequest<P>>, int))
    ensures |r.0| == 1 && r.1 == nodeCount
    ensures r.0[0].numberInstances == nodeCount && r.0[0].instanceType == "i2.2xlarge" && r.0[0].spotPrice == spotPrice
  {
    ([NodeRequest(nodeCount, "i2.2xlarge", spotPrice)], nodeCount)
  }
}
