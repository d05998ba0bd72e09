/**
 * build_graph of pipeline/aws_chiles02/generate_clean_graph.py: one chain of
 * copy-from-S3 / clean / copy-to-S3 steps per group of frequency pairs, all
 * starting from one file drop, with a barrier app reading the last S3
 * output of every chain.
 */
module CleanGraph {
  import opened Wrappers
  import opened Text
  import opened Drops
  import opened PyArith
  import opened BuildGraphCommon
  import opened GraphNaming

  /** The command-line arguments build_graph reads (ms_set is parsed but unused). */
  datatype Args = Args(awsAccessKeyId: string, awsSecretAccessKey: string, bucket: string, volume: string, cores: int)

  predicate NonEmptyGroups(groups: seq<seq<FrequencyPair>>) {
    forall g :: 0 <= g < |groups| ==> |groups[g]| > 0
  }

  /** number_in_chain = len(FREQUENCY_GROUPS) / cores with Python 2 division; zero cores raise. */
  function NumberInChain(frequencyGroups: nat, cores: int): (r: Result<int, string>)
    ensures r.Err? <==> cores == 0
    ensures cores > 0 ==> r.Ok? && cores * r.value <= frequencyGroups < cores * r.value + cores
    ensures cores < 0 ==> r.Ok? && r.value <= 0
    ensures cores < 0 ==> r.Ok? && cores * r.value + cores < frequencyGroups <= cores * r.value
  {
    if cores == 0 then Err("ZeroDivisionError") else Ok(FloorDiv(frequencyGroups, cores))
  }

  /*
   * The drops. build_graph writes every drop as a dict literal whose
   * "oid" and "uid" come from the next get_oid and get_uid calls; the
   * k-th pair of calls of the build (counting from 0) names one drop.
   * A drop is recorded here as a Node: its oid field is that k, and its
   * attrs field is its Role, the dict literal it was written from with
   * the literal's parameters. DictOf writes a node out as its dropdict.
   */

  /** The dict literals of build_graph, each with what it depends on besides args. */
  datatype Role =
    | FileDir                          // file_drop
    | CopyFromS3(pair: FrequencyPair)  // copy_from_s3
    | MeasurementSets                  // measurement_sets
    | Clean(pair: FrequencyPair)       // casa_py_drop
    | Result                           // result
    | CopyToS3(pair: FrequencyPair)    // copy_to_s3
    | S3Out(pair: FrequencyPair)       // s3_drop_out
    | Barrier                          // barrier_drop

  type Node = Drop<nat, Role>

  /** The count_type the literal passes to get_oid. */
  function OidType(r: Role): string
  {
    match r
    case FileDir | MeasurementSets | Result => "dir"
    case S3Out(_) => "s3"
    case _ => "app"
  }

  function FileDropAttrs(volume: string, oid: string): map<string, Value>
  {
    map["storage" := Str("file"), "precious" := Bool(false), "dirname" := Str(PathJoin(volume, oid)),
        "check_exists" := Bool(false)]
  }

  function DirAttrs(volume: string, oid: string): map<string, Value>
  {
    map["container" := ModuleOf("DirectoryContainer"), "precious" := Bool(false),
        "dirname" := Str(PathJoin(volume, oid)), "check_exists" := Bool(false)]
  }

  function ResultAttrs(volume: string, oid: string): map<string, Value>
  {
    DirAttrs(volume, oid)["expireAfterUse" := Bool(true)]
  }

  function CopyFromS3Attrs(args: Args, pair: FrequencyPair): map<string, Value>
  {
    map["app" := ModuleOf("DockerCopyAllFromS3Folder"), "image" := CommonConst("CONTAINER_JAVA_S3_COPY"),
        "command" := Str("copy_from_all_from_s3_folder"), "aws_access_key_id" := Str(args.awsAccessKeyId),
        "aws_secret_access_key" := Str(args.awsSecretAccessKey), "min_frequency" := Int(pair.low),
        "max_frequency" := Int(pair.high), "user" := Str("root")]
  }

  function CleanAttrs(pair: FrequencyPair): map<string, Value>
  {
    map["app" := ModuleOf("DockerClean"), "image" := CommonConst("CONTAINER_CHILES02"), "command" := Str("clean"),
        "min_frequency" := Int(pair.low), "max_frequency" := Int(pair.high), "user" := Str("root")]
  }

  function CopyToS3Attrs(args: Args, pair: FrequencyPair): map<string, Value>
  {
    map["app" := ModuleOf("DockerCopyToS3"), "image" := CommonConst("CONTAINER_JAVA_S3_COPY"),
        "command" := Str("copy_to_s3"), "user" := Str("root"), "min_frequency" := Int(pair.low),
        "max_frequency" := Int(pair.high), "aws_access_key_id" := Str(args.awsAccessKeyId),
        "aws_secret_access_key" := Str(args.awsSecretAccessKey)]
  }

  /** 'clean/{0}_{1}/{0}_{1}.tar' */
  function CleanKey(pair: FrequencyPair): string
  {
    var name := PairName(pair);
    "clean/" + (name + ("/" + (name + ".tar")))
  }

  /** Different frequency pairs are written to different S3 keys. */
  lemma CleanKeyInjective(p1: FrequencyPair, p2: FrequencyPair)
    requires CleanKey(p1) == CleanKey(p2)
    ensures p1 == p2
  {
    var n1, n2 := PairName(p1), PairName(p2);
    CancelPrefix("clean/", n1 + ("/" + (n1 + ".tar")), n2 + ("/" + (n2 + ".tar")));
    assert n1 + ("/" + (n1 + ".tar")) == n1 + ['/'] + (n1 + ".tar");
    assert n2 + ("/" + (n2 + ".tar")) == n2 + ['/'] + (n2 + ".tar");
    assert '/' !in n1 && '/' !in n2;
    SplitAtFirst(n1, n1 + ".tar", n2, n2 + ".tar", '/');
    PairNameInjective(p1, p2);
  }

  function S3OutAttrs(args: Args, pair: FrequencyPair): map<string, Value>
  {
    map["storage" := Str("s3"), "expireAfterUse" := Bool(true), "precious" := Bool(false),
        "bucket" := Str(args.bucket), "key" := Str(CleanKey(pair)),
        "aws_access_key_id" := Str(args.awsAccessKeyId), "aws_secret_access_key" := Str(args.awsSecretAccessKey)]
  }

  function BarrierAttrs(): map<string, Value>
  {
    map["app" := ModuleOf("BarrierAppDROP"), "user" := Str("root")]
  }

  /** The keys of a literal other than "type", "oid" and "uid"; `oid` is the literal's oid. */
  function AttrsOf(args: Args, r: Role, oid: string): map<string, Value>
  {
    match r
    case FileDir => FileDropAttrs(args.volume, oid)
    case CopyFromS3(pair) => CopyFromS3Attrs(args, pair)
    case MeasurementSets => DirAttrs(args.volume, oid)
    case Clean(pair) => CleanAttrs(pair)
    case Result => ResultAttrs(args.volume, oid)
    case CopyToS3(pair) => CopyToS3Attrs(args, pair)
    case S3Out(pair) => S3OutAttrs(args, pair)
    case Barrier => BarrierAttrs()
  }

  /** The dropdict a node stands for: same kind, uid and edges, the oid its get_oid call hands out, the literal's keys. */
  function DictOf(args: Args, d: Node): (r: Dropdict)
    ensures r.kind == d.kind && r.uid == d.uid && r.inputs == d.inputs && r.outputs == d.outputs
    ensures r.oid == CallOid(OidType(d.attrs), d.oid) && r.attrs == AttrsOf(args, d.attrs, r.oid)
  {
    var oid := CallOid(OidType(d.attrs), d.oid);
    Drop(d.kind, oid, d.uid, AttrsOf(args, d.attrs, oid), d.inputs, d.outputs)
  }

  /** The dropdicts of a list of nodes, in order. */
  function DictsOf(args: Args, ds: seq<Node>): (r: seq<Dropdict>)
    ensures |r| == |ds|
  {
    seq(|ds|, i requires 0 <= i < |ds| => DictOf(args, ds[i]))
  }

  /** The number of pairs in the groups before group g. */
  function Offset(groups: seq<seq<FrequencyPair>>, g: nat): nat
    requires g <= |groups|
  {
    if g == 0 then 0 else Offset(groups, g - 1) + |groups[g - 1]|
  }

  function TotalPairs(groups: seq<seq<FrequencyPair>>): nat
  {
    Offset(groups, |groups|)
  }

  lemma {:induction false} OffsetMonotonic(groups: seq<seq<FrequencyPair>>, a: nat, b: nat)
    requires a <= b <= |groups|
    ensures Offset(groups, a) + (if a < b then |groups[a]| else 0) <= Offset(groups, b)
    decreases b - a
  {
    if a < b {
      OffsetMonotonic(groups, a + 1, b);
    }
  }

  /** The file drop: the graph's single start drop (call 0). */
  function FileNode(): Node
  {
    NewDrop(Plain, 0, 0, FileDir)
  }

  /*
   * The drops of the n-th pair of the build, whose get_oid/get_uid calls
   * are 1 + 6n .. 6 + 6n in the order copy_from_s3, measurement_sets,
   * clean app, result, copy_to_s3, s3_drop_out.
   */

  /** copy_from_s3: reads the drop with uid `input`, writes measurement_sets. */
  function CopyFromS3Node(n: nat, pair: FrequencyPair, input: Uid): Node
  {
    Drop(App, 1 + 6 * n, 1 + 6 * n, CopyFromS3(pair), [input], [2 + 6 * n])
  }

  function MeasurementSetsNode(n: nat): Node
  {
    NewDrop(Container, 2 + 6 * n, 2 + 6 * n, MeasurementSets)
  }

  /** The clean app: reads measurement_sets, writes result; wired but never listed. */
  function CleanNode(n: nat, pair: FrequencyPair): Node
  {
    Drop(App, 3 + 6 * n, 3 + 6 * n, Clean(pair), [2 + 6 * n], [4 + 6 * n])
  }

  /** The clean app's result container; wired but never listed. */
  function ResultNode(n: nat): Node
  {
    NewDrop(Container, 4 + 6 * n, 4 + 6 * n, Result)
  }

  /** copy_to_s3: reads result, writes s3_drop_out. */
  function CopyToS3Node(n: nat, pair: FrequencyPair): Node
  {
    Drop(App, 5 + 6 * n, 5 + 6 * n, CopyToS3(pair), [4 + 6 * n], [6 + 6 * n])
  }

  function S3OutNode(n: nat, pair: FrequencyPair): Node
  {
    NewDrop(Plain, 6 + 6 * n, 6 + 6 * n, S3Out(pair))
  }

  /*
   * The steps of the build. The n-th step (counting from 0 over all
   * groups) builds the drops of one frequency pair.
   */

  /** One step of the build: a frequency pair, and whether it opens its group's chain. */
  datatype Step = Step(pair: FrequencyPair, first: bool)

  /** The steps of one group: its pairs in order, the first opening the chain. */
  function GroupSteps(group: seq<FrequencyPair>): (r: seq<Step>)
    ensures |r| == |group| && forall p :: 0 <= p < |group| ==> r[p] == Step(group[p], p == 0)
  {
    seq(|group|, p requires 0 <= p < |group| => Step(group[p], p == 0))
  }

  /** The steps of the first g groups, in the order the two loops of build_graph run them. */
  function StepsUpTo(groups: seq<seq<FrequencyPair>>, g: nat): (r: seq<Step>)
    requires g <= |groups|
    ensures |r| == Offset(groups, g)
  {
    if g == 0 then [] else StepsUpTo(groups, g - 1) + GroupSteps(groups[g - 1])
  }

  function Steps(groups: seq<seq<FrequencyPair>>): (r: seq<Step>)
    ensures |r| == TotalPairs(groups)
  {
    StepsUpTo(groups, |groups|)
  }

  lemma {:induction false} StepsUpToAt(groups: seq<seq<FrequencyPair>>, g: nat, p: nat, h: nat)
    requires g < h <= |groups| && p < |groups[g]|
    ensures Offset(groups, g) + p < Offset(groups, h)
    ensures StepsUpTo(groups, h)[Offset(groups, g) + p] == Step(groups[g][p], p == 0)
    decreases h
  {
    if h > g + 1 {
      StepsUpToAt(groups, g, p, h - 1);
    }
  }

  /** Pair p of group g is the (Offset(g) + p)-th step, and it opens a chain exactly when p is 0. */
  lemma StepOf(groups: seq<seq<FrequencyPair>>, g: nat, p: nat, n: nat)
    requires g < |groups| && p < |groups[g]| && n == Offset(groups, g) + p
    ensures n < |Steps(groups)| && Steps(groups)[n] == Step(groups[g][p], p == 0)
  {
    StepsUpToAt(groups, g, p, |groups|);
  }

  /** What the n-th step reads: the file drop when it opens its chain, else the S3 output of step n - 1. */
  function StepInput(n: nat, s: Step): Uid
  {
    if s.first then 0 else 6 * n
  }

  /** The four drops the n-th step appends to the list: copy_from_s3, measurement_sets, copy_to_s3, s3_drop_out. */
  function StepListed(n: nat, s: Step): seq<Node>
  {
    [CopyFromS3Node(n, s.pair, StepInput(n, s)), MeasurementSetsNode(n), CopyToS3Node(n, s.pair), S3OutNode(n, s.pair)]
  }

  /** The clean app and its result container, which the n-th step wires but never lists. */
  function StepHidden(n: nat, s: Step): seq<Node>
  {
    [CleanNode(n, s.pair), ResultNode(n)]
  }

  /** The file drop, then the drops the first n steps list, in order. */
  function ListedUpTo(steps: seq<Step>, n: nat): (r: seq<Node>)
    requires n <= |steps|
    ensures |r| == 1 + 4 * n
  {
    if n == 0 then [FileNode()] else ListedUpTo(steps, n - 1) + StepListed(n - 1, steps[n - 1])
  }

  /** The uids of the last S3 output drop of each of the first g groups. */
  function TailUids(groups: seq<seq<FrequencyPair>>, g: nat): (r: seq<Uid>)
    requires g <= |groups|
    ensures |r| == g && forall i :: 0 <= i < g ==> r[i] == 6 * Offset(groups, i + 1)
  {
    if g == 0 then [] else TailUids(groups, g - 1) + [6 * Offset(groups, g)]
  }

  /** The next group's tail is not among the earlier tails, since every group holds at least one pair. */
  lemma TailUidsFresh(groups: seq<seq<FrequencyPair>>, i: nat)
    requires NonEmptyGroups(groups) && i < |groups|
    ensures 6 * Offset(groups, i + 1) !in TailUids(groups, i)
  {
    var tails := TailUids(groups, i);
    forall j | 0 <= j < i ensures tails[j] != 6 * Offset(groups, i + 1) {
      OffsetMonotonic(groups, j + 1, i + 1);
    }
  }

  /** The barrier: the app after the last step, reading the last S3 output of every chain. */
  function BarrierNode(groups: seq<seq<FrequencyPair>>): Node
  {
    var k := 1 + 6 * TotalPairs(groups);
    Drop(App, k, k, Barrier, TailUids(groups, |groups|), [])
  }

  /**
   * The drops build_graph lists: the file drop, the listed drops of every
   * step in order, and the barrier. The clean apps and result containers
   * the steps wire are not among them.
   */
  function CleanGraphNodes(groups: seq<seq<FrequencyPair>>): seq<Node>
  {
    ListedUpTo(Steps(groups), |Steps(groups)|) + [BarrierNode(groups)]
  }

  /**
   * The body of build_graph's inner loop for the n-th step of the build,
   * whose first get_oid/get_uid call is the (1 + 6n)-th: copy_from_s3 reads `input` and writes
   * measurement_sets, the clean app reads that and writes result, and
   * copy_to_s3 reads result and writes s3_drop_out. Four of the six drops
   * are returned for listing; the clean app and result are not.
   */
  method WirePair(n: nat, pair: FrequencyPair, input: Node, ghost s: Step)
    returns (listed: seq<Node>, ghost unlisted: seq<Node>)
    requires s.pair == pair && input.uid == StepInput(n, s)
    ensures listed == StepListed(n, s) && unlisted == StepHidden(n, s)
    ensures listed[3].uid == 6 * (n + 1)
  {
    var copyFromS3: Node := NewDrop(App, 1 + 6 * n, 1 + 6 * n, CopyFromS3(pair));
    var measurementSets: Node := NewDrop(Container, 2 + 6 * n, 2 + 6 * n, MeasurementSets);
    copyFromS3 := AddInput(copyFromS3, input);
    copyFromS3 := AddOutput(copyFromS3, measurementSets);

    var casaPyDrop: Node := NewDrop(App, 3 + 6 * n, 3 + 6 * n, Clean(pair));
    var result: Node := NewDrop(Container, 4 + 6 * n, 4 + 6 * n, Result);
    casaPyDrop := AddInput(casaPyDrop, measurementSets);
    casaPyDrop := AddOutput(casaPyDrop, result);

    var copyToS3: Node := NewDrop(App, 5 + 6 * n, 5 + 6 * n, CopyToS3(pair));
    var s3DropOut: Node := NewDrop(Plain, 6 + 6 * n, 6 + 6 * n, S3Out(pair));
    copyToS3 := AddInput(copyToS3, result);
    copyToS3 := AddOutput(copyToS3, s3DropOut);

    listed := [copyFromS3, measurementSets, copyToS3, s3DropOut];
    unlisted := [casaPyDrop, result];
  }

  /**
   * The inner loop of build_graph over the pairs of group g; n counts the
   * steps run so far. The first pair reads the file drop, every later
   * one the previous pair's S3 output; the last S3 output is returned as
   * end_of_last_element.
   */
  method ChainGroup(groups: seq<seq<FrequencyPair>>, g: nat, fileDrop: Node, n0: nat, dl0: seq<Node>)
    returns (dropList: seq<Node>, n: nat, endOfLastElement: Option<Node>)
    requires g < |groups| && |groups[g]| > 0 && fileDrop.uid == 0
    requires n0 == Offset(groups, g) && n0 + |groups[g]| <= |Steps(groups)|
    requires dl0 == ListedUpTo(Steps(groups), n0)
    ensures n == Offset(groups, g + 1) && n <= |Steps(groups)|
    ensures dropList == ListedUpTo(Steps(groups), n)
    ensures endOfLastElement.Some? && endOfLastElement.value.uid == 6 * n
  {
    ghost var steps := Steps(groups);
    dropList, n := dl0, n0;
    var group := groups[g];
    var first := true;
    endOfLastElement := None;
    var p := 0;
    while p < |group|
      invariant 0 <= p <= |group| && n == n0 + p
      invariant dropList == ListedUpTo(steps, n)
      invariant first <==> p == 0
      invariant p > 0 ==> endOfLastElement.Some? && endOfLastElement.value.uid == 6 * n
    {
      var input := if first then fileDrop else endOfLastElement.value;
      StepOf(groups, g, p, n);
      var listed, _ := WirePair(n, group[p], input, steps[n]);
      dropList := dropList + listed;
      first := false;
      endOfLastElement := Some(listed[3]);
      n := n + 1;
      p := p + 1;
    }
  }

  /** The i-th of `outputs` is the end of chain i: the S3 output of the last pair of group i. */
  predicate ChainEnds(groups: seq<seq<FrequencyPair>>, outputs: seq<Option<Node>>)
  {
    && |outputs| <= |groups|
    && forall i :: 0 <= i < |outputs| ==> outputs[i].Some? && outputs[i].value.uid == 6 * Offset(groups, i + 1)
  }

  lemma ChainEndsAppend(groups: seq<seq<FrequencyPair>>, outputs: seq<Option<Node>>, e: Option<Node>)
    requires ChainEnds(groups, outputs) && |outputs| < |groups|
    requires e.Some? && e.value.uid == 6 * Offset(groups, |outputs| + 1)
    ensures ChainEnds(groups, outputs + [e])
  {
  }

  /**
   * The barrier of build_graph: made with no edges, then given as inputs
   * the end_of_last_element of each group, in group order.
   */
  method WireBarrier(groups: seq<seq<FrequencyPair>>, k: nat, outputs: seq<Option<Node>>)
    returns (barrierDrop: Node)
    requires NonEmptyGroups(groups)
    requires |outputs| == |groups|
    requires ChainEnds(groups, outputs)
    ensures barrierDrop == Drop(App, k, k, Barrier, TailUids(groups, |groups|), [])
  {
    barrierDrop := NewDrop(App, k, k, Barrier);
    var i := 0;
    while i < |outputs|
      invariant 0 <= i <= |outputs|
      invariant barrierDrop == Drop(App, k, k, Barrier, TailUids(groups, i), [])
    {
      TailUidsFresh(groups, i);
      barrierDrop := AddInput(barrierDrop, outputs[i].value);
      i := i + 1;
    }
  }

  /**
   * The loops of build_graph once the file drop is made: one chain per
   * group, then the barrier over each chain's last S3 output.
   */
  method BuildChains(groups: seq<seq<FrequencyPair>>) returns (dropList: seq<Node>, startUids: seq<Uid>)
    requires NonEmptyGroups(groups)
    ensures dropList == CleanGraphNodes(groups)
    ensures startUids == [0]
  {
    ghost var steps := Steps(groups);
    var fileDrop: Node := NewDrop(Plain, 0, 0, FileDir);
    dropList := [fileDrop];

    var n := 0;
    var outputs: seq<Option<Node>> := [];
    var g := 0;
    while g < |groups|
      invariant 0 <= g <= |groups|
      invariant n == Offset(groups, g) && n <= |steps|
      invariant dropList == ListedUpTo(steps, n)
      invariant |outputs| == g && ChainEnds(groups, outputs)
    {
      OffsetMonotonic(groups, g, |groups|);
      var endOfLastElement;
      dropList, n, endOfLastElement := ChainGroup(groups, g, fileDrop, n, dropList);
      ChainEndsAppend(groups, outputs, endOfLastElement);
      outputs := outputs + [endOfLastElement];
      g := g + 1;
    }

    assert n == TotalPairs(groups) == |steps|;
    var barrierDrop := WireBarrier(groups, 1 + 6 * n, outputs);
    assert barrierDrop == BarrierNode(groups);
    dropList := dropList + [barrierDrop];
    startUids := [fileDrop.uid];
  }

  /**
   * build_graph: zero cores raise, as Python's division does; otherwise the
   * groups are what make_groups_of_frequencies (not part of this model)
   * returns for the chain length. A group with no pairs leaves None among
   * the chain ends, and the barrier's addInput of None raises.
   */
  method BuildGraph(args: Args, frequencyGroups: nat, makeGroups: int -> seq<seq<FrequencyPair>>)
    returns (r: Result<(seq<Dropdict>, seq<Uid>), string>)
    ensures r.Err? <==> args.cores == 0 || !NonEmptyGroups(makeGroups(FloorDiv(frequencyGroups, args.cores)))
    ensures r.Ok? ==> r.value.0 == DictsOf(args, CleanGraphNodes(makeGroups(FloorDiv(frequencyGroups, args.cores))))
    ensures r.Ok? ==> r.value.1 == [0]
  {
    var numberInChain := NumberInChain(frequencyGroups, args.cores);
    if numberInChain.Err? {
      return Err(numberInChain.error);
    }
    var groups := makeGroups(numberInChain.value);
    if !NonEmptyGroups(groups) {
      return Err("TypeError");
    }
    var dropList, startUids := BuildChains(groups);
    r := Ok((DictsOf(args, dropList), startUids));
  }

  /*
   * What the graph build_graph returns looks like, read off CleanGraphNodes.
   */

  /** The file drop stays first however many steps run. */
  lemma {:induction false} ListedStart(steps: seq<Step>, m: nat)
    requires m <= |steps|
    ensures ListedUpTo(steps, m)[0] == FileNode()
  {
    if m > 0 {
      ListedStart(steps, m - 1);
    }
  }

  /** The n-th step's listed drops sit at 1 + 4n .. 4 + 4n of what the first m steps list, for every n < m. */
  lemma {:induction false} ListedAt(steps: seq<Step>, m: nat, n: nat)
    requires n < m <= |steps|
    ensures forall i :: 0 <= i < 4 ==> ListedUpTo(steps, m)[1 + 4 * n + i] == StepListed(n, steps[n])[i]
    decreases m
  {
    if n < m - 1 {
      ListedAt(steps, m - 1, n);
    }
  }

  /** The graph opens with the file drop and closes with the barrier, with four listed drops per step between. */
  lemma GraphEnds(groups: seq<seq<FrequencyPair>>)
    ensures var dl := CleanGraphNodes(groups);
      && |dl| == 2 + 4 * TotalPairs(groups)
      && dl[0] == FileNode() && dl[|dl| - 1] == BarrierNode(groups)
  {
    ListedStart(Steps(groups), |Steps(groups)|);
  }

  /** The n-th step's listed drops are at 1 + 4n .. 4 + 4n of the graph. */
  lemma GraphStep(groups: seq<seq<FrequencyPair>>, n: nat)
    requires n < TotalPairs(groups)
    ensures 5 + 4 * n < |CleanGraphNodes(groups)|
    ensures forall i :: 0 <= i < 4 ==> CleanGraphNodes(groups)[1 + 4 * n + i] == StepListed(n, Steps(groups)[n])[i]
  {
    var steps := Steps(groups);
    ListedAt(steps, |steps|, n);
  }

  /**
   * Inside one step the data flows copy_from_s3 -> measurement_sets ->
   * clean -> result -> copy_to_s3 -> s3_drop_out, the first app reads
   * the step's input, and the S3 output is named after the step's pair.
   */
  lemma StepPipeline(n: nat, s: Step)
    ensures var l, h := StepListed(n, s), StepHidden(n, s);
      && l[0].kind == App && l[0].inputs == [StepInput(n, s)] && l[0].outputs == [l[1].uid]
      && l[1].kind == Container
      && h[0].kind == App && h[0].inputs == [l[1].uid] && h[0].outputs == [h[1].uid]
      && h[1].kind == Container
      && l[2].kind == App && l[2].inputs == [h[1].uid] && l[2].outputs == [l[3].uid]
      && l[3].kind == Plain && l[3].attrs == S3Out(s.pair)
  {
  }

  /** A step that opens a chain reads the file drop. */
  lemma ChainStart(n: nat, s: Step)
    requires s.first
    ensures StepListed(n, s)[0].inputs == [FileNode().uid]
  {
  }

  /** Any other step reads the S3 output of the step before it. */
  lemma ChainLink(n: nat, s: Step, next: Step)
    requires !next.first
    ensures StepListed(n + 1, next)[0].inputs == [StepListed(n, s)[3].uid]
  {
  }

  /**
   * The barrier writes nothing and reads one drop per group: for group g
   * the S3 output of its last pair, which is step k, the one just before
   * group g + 1.
   */
  lemma BarrierReadsChainEnds(groups: seq<seq<FrequencyPair>>, g: nat, k: nat)
    requires NonEmptyGroups(groups) && g < |groups| && k + 1 == Offset(groups, g + 1)
    ensures BarrierNode(groups).outputs == [] && |BarrierNode(groups).inputs| == |groups|
    ensures k < |Steps(groups)| && Steps(groups)[k] == Step(groups[g][|groups[g]| - 1], |groups[g]| == 1)
    ensures BarrierNode(groups).inputs[g] == StepListed(k, Steps(groups)[k])[3].uid
  {
    StepOf(groups, g, |groups[g]| - 1, k);
  }

  /** get_oid and get_uid are called in list order: the listed drops' call numbers strictly increase, up to 6m. */
  lemma {:induction false} ListedCallsIncrease(steps: seq<Step>, m: nat)
    requires m <= |steps|
    ensures forall i :: 0 <= i < 1 + 4 * m ==> ListedUpTo(steps, m)[i].uid == ListedUpTo(steps, m)[i].oid <= 6 * m
    ensures forall i, j :: 0 <= i < j < 1 + 4 * m ==> ListedUpTo(steps, m)[i].oid < ListedUpTo(steps, m)[j].oid
  {
    if m > 0 {
      ListedCallsIncrease(steps, m - 1);
      var prev, step := ListedUpTo(steps, m - 1), StepListed(m - 1, steps[m - 1]);
      assert prev + step == ListedUpTo(steps, m);
      assert forall i :: 0 <= i < 4 ==> step[i].uid == step[i].oid && 6 * (m - 1) < step[i].oid <= 6 * m;
      assert forall i, j :: 0 <= i < j < 4 ==> step[i].oid < step[j].oid;
      AppendCallsIncrease(prev, step, 6 * (m - 1), 6 * m);
    }
  }

  /** Two runs of drops, each named by increasing calls, the second's all after the first's, make one such run. */
  lemma AppendCallsIncrease(a: seq<Node>, b: seq<Node>, mid: nat, top: nat)
    requires forall i :: 0 <= i < |a| ==> a[i].uid == a[i].oid <= mid
    requires forall i :: 0 <= i < |b| ==> b[i].uid == b[i].oid && mid < b[i].oid <= top
    requires mid <= top
    requires forall i, j :: 0 <= i < j < |a| ==> a[i].oid < a[j].oid
    requires forall i, j :: 0 <= i < j < |b| ==> b[i].oid < b[j].oid
    ensures forall i :: 0 <= i < |a + b| ==> (a + b)[i].uid == (a + b)[i].oid <= top
    ensures forall i, j :: 0 <= i < j < |a + b| ==> (a + b)[i].oid < (a + b)[j].oid
  {
    var l := a + b;
    forall i | 0 <= i < |l|
      ensures l[i].uid == l[i].oid <= top
    {
      if i >= |a| {
        assert l[i] == b[i - |a|];
      }
    }
    forall i, j | 0 <= i < j < |l|
      ensures l[i].oid < l[j].oid
    {
      if |a| <= i {
        assert l[i] == b[i - |a|] && l[j] == b[j - |a|];
      } else if |a| <= j {
        assert l[j] == b[j - |a|];
      }
    }
  }

  /** No two drops of the graph share a get_oid call, and so no two share a uid. */
  lemma GraphCallsDistinct(groups: seq<seq<FrequencyPair>>)
    ensures forall i, j :: 0 <= i < j < |CleanGraphNodes(groups)| ==>
      CleanGraphNodes(groups)[i].oid < CleanGraphNodes(groups)[j].oid && CleanGraphNodes(groups)[i].uid < CleanGraphNodes(groups)[j].uid
  {
    var steps := Steps(groups);
    ListedCallsIncrease(steps, |steps|);
    var listed := ListedUpTo(steps, |steps|);
    var dl := CleanGraphNodes(groups);
    assert forall i :: 0 <= i < |listed| ==> dl[i] == listed[i];
    assert dl[|listed|] == BarrierNode(groups);
  }

  /*
   * The dropdicts.
   */

  /** The S3 output of a step is written to bucket/clean/<min>_<max>/<min>_<max>.tar. */
  lemma S3OutKey(args: Args, n: nat, pair: FrequencyPair)
    ensures var d := DictOf(args, S3OutNode(n, pair));
      && d.kind == Plain && d.attrs["storage"] == Str("s3")
      && d.attrs["bucket"] == Str(args.bucket) && d.attrs["key"] == Str(CleanKey(pair))
  {
  }

  /** Every directory the graph names lies under the volume, named by its own oid. */
  lemma DirectoriesNamedByOid(args: Args, d: Node)
    requires d.attrs == FileDir || d.attrs == MeasurementSets || d.attrs == Result
    ensures var r := DictOf(args, d);
      && "dirname" in r.attrs && r.attrs["dirname"] == Str(PathJoin(args.volume, r.oid))
  {
  }

  /** Drops named by different get_oid calls have different oids. */
  lemma DictOidsDiffer(args: Args, d1: Node, d2: Node)
    requires d1.oid != d2.oid
    ensures DictOf(args, d1).oid != DictOf(args, d2).oid
  {
    if DictOf(args, d1).oid == DictOf(args, d2).oid {
      CallOidInjective(OidType(d1.attrs), d1.oid, OidType(d2.attrs), d2.oid);
    }
  }

  /** In the dropdicts build_graph returns, the n-th step's S3 output is the drop at 4 + 4n, as S3OutKey describes it. */
  lemma GraphS3Out(args: Args, groups: seq<seq<FrequencyPair>>, n: nat)
    requires n < TotalPairs(groups)
    ensures 4 + 4 * n < |DictsOf(args, CleanGraphNodes(groups))|
    ensures DictsOf(args, CleanGraphNodes(groups))[4 + 4 * n] == DictOf(args, S3OutNode(n, Steps(groups)[n].pair))
  {
    GraphStep(groups, n);
    assert CleanGraphNodes(groups)[4 + 4 * n] == StepListed(n, Steps(groups)[n])[3];
  }

  /** The dropdicts build_graph returns have pairwise different oids and uids. */
  lemma GraphDictsDistinct(args: Args, groups: seq<seq<FrequencyPair>>, i: nat, j: nat)
    requires i < j < |CleanGraphNodes(groups)|
    ensures var ds := DictsOf(args, CleanGraphNodes(groups));
      ds[i].oid != ds[j].oid && ds[i].uid != ds[j].uid
  {
    var dl := CleanGraphNodes(groups);
    GraphCallsDistinct(groups);
    DictOidsDiffer(args, dl[i], dl[j]);
  }
}
