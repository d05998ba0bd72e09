/**
 * build_graph of pipeline/aws_chiles02/generate_mstransform_graph.py: a
 * measurement set copied down from S3, three mstransform apps splitting
 * it into fixed frequency bands, an S3 output listed for every band, and
 * a barrier over the set and the three outputs.
 */
module MsTransformGraph {
  import opened Text
  import opened Drops
  import opened GraphNaming

  /** The command-line arguments build_graph reads. */
  datatype Args = Args(awsAccessKeyId: string, awsSecretAccessKey: string, bucket: string, msSet: string, volume: string)

  /*
   * As in the clean graph, a drop is recorded as a Node whose oid field
   * is the number of its get_oid/get_uid call and whose attrs field is
   * the dict literal it was written from; DictOf writes it out.
   */

  /** The dict literals of build_graph. */
  datatype Role =
    | S3In                                // s3_drop
    | CopyFromS3                          // copy_from_s3
    | MeasurementSet                      // measurement_set
    | MsTransform(pair: FrequencyPair)    // casa_py_drop
    | Result                              // result
    | CopyToS3                            // copy_to_s3
    | S3Out(pair: FrequencyPair)          // s3_drop_out
    | Barrier                             // barrier_drop

  type Node = Drop<nat, Role>

  /** The frequency bands build_graph loops over, in order. */
  const Bands: seq<FrequencyPair> := [FrequencyPair(980, 984), FrequencyPair(984, 988), FrequencyPair(988, 992)]

  /** The count_type the literal passes to get_oid. */
  function OidType(r: Role): string
  {
    match r
    case S3In | S3Out(_) => "s3"
    case MeasurementSet | Result => "dir"
    case _ => "app"
  }

  /** '{0}_{1}/{2}'.format(min, max, observation): where a band's output goes in the bucket. */
  function OutKey(pair: FrequencyPair, observation: string): string
  {
    PairName(pair) + ("/" + observation)
  }

  /** Different bands, or different observations, are written to different keys. */
  lemma OutKeyInjective(p1: FrequencyPair, o1: string, p2: FrequencyPair, o2: string)
    requires OutKey(p1, o1) == OutKey(p2, o2)
    ensures p1 == p2 && o1 == o2
  {
    var n1, n2 := PairName(p1), PairName(p2);
    assert n1 + ("/" + o1) == n1 + ['/'] + o1;
    assert n2 + ("/" + o2) == n2 + ['/'] + o2;
    assert '/' !in n1 && '/' !in n2;
    SplitAtFirst(n1, o1, n2, o2, '/');
    PairNameInjective(p1, p2);
  }

  /** The three bands' outputs never overwrite one another. */
  lemma BandKeysDiffer(observation: string, b1: nat, b2: nat)
    requires b1 < b2 < |Bands|
    ensures OutKey(Bands[b1], observation) != OutKey(Bands[b2], observation)
  {
    if OutKey(Bands[b1], observation) == OutKey(Bands[b2], observation) {
      OutKeyInjective(Bands[b1], observation, Bands[b2], observation);
    }
  }

  /** The keys of a literal other than "type", "oid" and "uid"; `oid` is the literal's oid. */
  function AttrsOf(args: Args, observation: string, r: Role, oid: string): map<string, Value>
  {
    match r
    case S3In =>
      map["storage" := Str("s3"), "bucket" := Str(args.bucket), "key" := Str(args.msSet),
          "aws_access_key_id" := Str(args.awsAccessKeyId), "aws_secret_access_key" := Str(args.awsSecretAccessKey)]
    case CopyFromS3 =>
      map["app" := ModuleOf("DockerCopyFromS3"), "aws_access_key_id" := Str(args.awsAccessKeyId),
          "aws_secret_access_key" := Str(args.awsSecretAccessKey), "user" := Str("root")]
    case MeasurementSet =>
      map["container" := ModuleOf("DirectoryContainer"), "dirname" := Str(PathJoin(args.volume, oid)),
          "check_exists" := Bool(false)]
    case MsTransform(pair) =>
      map["app" := ModuleOf("DockerMsTransform"), "min_frequency" := Int(pair.low),
          "max_frequency" := Int(pair.high), "user" := Str("root")]
    case Result =>
      map["container" := ModuleOf("DirectoryContainer"), "dirname" := Str(PathJoin(args.volume, oid)),
          "check_exists" := Bool(false), "expiryAfterUse" := Bool(true)]
    case CopyToS3 =>
      map["app" := ModuleOf("DockerCopyToS3"), "user" := Str("root")]
    case S3Out(pair) =>
      map["storage" := Str("s3"), "expiryAfterUse" := Bool(true), "bucket" := Str(args.bucket),
          "key" := Str(OutKey(pair, observation)), "aws_access_key_id" := Str(args.awsAccessKeyId),
          "aws_secret_access_key" := Str(args.awsSecretAccessKey)]
    case Barrier =>
      map["app" := ModuleOf("BarrierAppDROP"), "user" := Str("root")]
  }

  /**
   * The dropdict a node stands for. `observation` is what get_observation
   * of aws_chiles02.common (not part of this model) returns for s3_drop.
   */
  function DictOf(args: Args, observation: string, d: Node): (r: Dropdict)
    ensures r.kind == d.kind && r.uid == d.uid && r.inputs == d.inputs && r.outputs == d.outputs
    ensures r.oid == CallOid(OidType(d.attrs), d.oid) && r.attrs == AttrsOf(args, observation, d.attrs, r.oid)
  {
    var oid := CallOid(OidType(d.attrs), d.oid);
    Drop(d.kind, oid, d.uid, AttrsOf(args, observation, d.attrs, oid), d.inputs, d.outputs)
  }

  /** The dropdicts of a list of nodes, in order. */
  function DictsOf(args: Args, observation: string, ds: seq<Node>): (r: seq<Dropdict>)
    ensures |r| == |ds|
  {
    seq(|ds|, i requires 0 <= i < |ds| => DictOf(args, observation, ds[i]))
  }

  /*
   * The drops, numbered by their get_oid/get_uid calls: s3_drop 0,
   * copy_from_s3 1, measurement_set 2, then for band b the mstransform
   * app 3 + 4b, its result 4 + 4b, copy_to_s3 5 + 4b and the S3 output
   * 6 + 4b, and the barrier last.
   */

  function S3InNode(): Node
  {
    NewDrop(Plain, 0, 0, S3In)
  }

  /** copy_from_s3 reads s3_drop and writes measurement_set. */
  function CopyFromS3Node(): Node
  {
    Drop(App, 1, 1, CopyFromS3, [0], [2])
  }

  function MeasurementSetNode(): Node
  {
    NewDrop(Container, 2, 2, MeasurementSet)
  }

  /** Band b's mstransform app reads measurement_set and writes its own result. */
  function MsTransformNode(b: nat, pair: FrequencyPair): Node
  {
    Drop(App, 3 + 4 * b, 3 + 4 * b, MsTransform(pair), [2], [4 + 4 * b])
  }

  function ResultNode(b: nat): Node
  {
    NewDrop(Container, 4 + 4 * b, 4 + 4 * b, Result)
  }

  /** Band b's copy_to_s3 app, listed without any edge. */
  function CopyToS3Node(b: nat): Node
  {
    NewDrop(App, 5 + 4 * b, 5 + 4 * b, CopyToS3)
  }

  /** Band b's S3 output, listed without any edge. */
  function S3OutNode(b: nat, pair: FrequencyPair): Node
  {
    NewDrop(Plain, 6 + 4 * b, 6 + 4 * b, S3Out(pair))
  }

  /** The four drops band b appends to the list, in order. */
  function BandNodes(b: nat, pair: FrequencyPair): seq<Node>
  {
    [MsTransformNode(b, pair), ResultNode(b), CopyToS3Node(b), S3OutNode(b, pair)]
  }

  /** The drops listed once the first m bands are built. */
  function ListedUpTo(m: nat): (r: seq<Node>)
    requires m <= |Bands|
    ensures |r| == 3 + 4 * m
  {
    if m == 0 then [S3InNode(), CopyFromS3Node(), MeasurementSetNode()]
    else ListedUpTo(m - 1) + BandNodes(m - 1, Bands[m - 1])
  }

  /** The uids of the first m bands' S3 outputs. */
  function OutUids(m: nat): (r: seq<Uid>)
    ensures |r| == m && forall b :: 0 <= b < m ==> r[b] == 6 + 4 * b
  {
    if m == 0 then [] else OutUids(m - 1) + [6 + 4 * m - 4]
  }

  /** The barrier: reads measurement_set, then each band's S3 output. */
  function BarrierNode(): Node
  {
    var k := 3 + 4 * |Bands|;
    Drop(App, k, k, Barrier, [2] + OutUids(|Bands|), [])
  }

  /** The drops build_graph lists, in construction order. */
  function GraphNodes(): seq<Node>
  {
    ListedUpTo(|Bands|) + [BarrierNode()]
  }

  /**
   * One pass of build_graph's loop, for band b: the mstransform app reads
   * measurement_set and writes its result; copy_to_s3 and the S3 output
   * are made but not wired.
   */
  method WireBand(b: nat, pair: FrequencyPair, measurementSet: Node) returns (listed: seq<Node>, s3DropOut: Node)
    requires measurementSet.uid == 2
    ensures listed == BandNodes(b, pair) && s3DropOut == listed[3]
  {
    var casaPyDrop: Node := NewDrop(App, 3 + 4 * b, 3 + 4 * b, MsTransform(pair));
    var result: Node := NewDrop(Container, 4 + 4 * b, 4 + 4 * b, Result);
    casaPyDrop := AddInput(casaPyDrop, measurementSet);
    casaPyDrop := AddOutput(casaPyDrop, result);
    listed := [casaPyDrop, result];

    var copyToS3: Node := NewDrop(App, 5 + 4 * b, 5 + 4 * b, CopyToS3);
    s3DropOut := NewDrop(Plain, 6 + 4 * b, 6 + 4 * b, S3Out(pair));
    listed := listed + [copyToS3, s3DropOut];
  }

  /** The barrier: made with no edges, then given measurement_set and each output as inputs, in order. */
  method WireBarrier(k: nat, measurementSet: Node, outputs: seq<Node>) returns (barrierDrop: Node)
    requires measurementSet.uid == 2
    requires forall i :: 0 <= i < |outputs| ==> outputs[i].uid == 6 + 4 * i
    ensures barrierDrop == Drop(App, k, k, Barrier, [2] + OutUids(|outputs|), [])
  {
    barrierDrop := NewDrop(App, k, k, Barrier);
    barrierDrop := AddInput(barrierDrop, measurementSet);
    var i := 0;
    while i < |outputs|
      invariant 0 <= i <= |outputs|
      invariant barrierDrop == Drop(App, k, k, Barrier, [2] + OutUids(i), [])
    {
      assert 6 + 4 * i !in [2] + OutUids(i);
      barrierDrop := AddInput(barrierDrop, outputs[i]);
      i := i + 1;
    }
  }

  /** build_graph's input chain: s3_drop -> copy_from_s3 -> measurement_set, all three listed. */
  method WireInput() returns (s3Drop: Node, measurementSet: Node, dropList: seq<Node>)
    ensures s3Drop == S3InNode() && measurementSet == MeasurementSetNode() && dropList == ListedUpTo(0)
  {
    s3Drop := NewDrop(Plain, 0, 0, S3In);
    var copyFromS3: Node := NewDrop(App, 1, 1, CopyFromS3);
    measurementSet := NewDrop(Container, 2, 2, MeasurementSet);
    copyFromS3 := AddInput(copyFromS3, s3Drop);
    copyFromS3 := AddOutput(copyFromS3, measurementSet);
    dropList := [s3Drop, copyFromS3, measurementSet];
  }

  /**
   * build_graph's statements, up to rendering the dropdicts: the input
   * chain, the loop over the bands, and the barrier. The source appends
   * the barrier to drop_list before adding its inputs, which the list
   * sees through the shared dict; here it is appended once wired.
   */
  method BuildNodes() returns (dropList: seq<Node>, startUids: seq<Uid>)
    ensures dropList == GraphNodes()
    ensures startUids == [S3InNode().uid]
  {
    var s3Drop, measurementSet;
    s3Drop, measurementSet, dropList := WireInput();
    var bands := Bands;
    var outputs: seq<Node> := [];
    var b := 0;
    while b < |bands|
      invariant 0 <= b <= |bands|
      invariant dropList == ListedUpTo(b)
      invariant |outputs| == b && forall i :: 0 <= i < b ==> outputs[i].uid == 6 + 4 * i
    {
      var listed, s3DropOut := WireBand(b, bands[b], measurementSet);
      dropList := dropList + listed;
      outputs := outputs + [s3DropOut];
      b := b + 1;
    }

    var barrierDrop := WireBarrier(3 + 4 * b, measurementSet, outputs);
    dropList := dropList + [barrierDrop];
    startUids := [s3Drop.uid];
  }

  /** build_graph: the dropdicts of the graph, and the start list holding s3_drop's uid. */
  method BuildGraph(args: Args, observation: string) returns (dropList: seq<Dropdict>, startUids: seq<Uid>)
    ensures dropList == DictsOf(args, observation, GraphNodes())
    ensures startUids == [0]
  {
    var nodes;
    nodes, startUids := BuildNodes();
    dropList := DictsOf(args, observation, nodes);
  }

  /*
   * What the graph looks like, read off GraphNodes.
   */

  /** Band b's drops sit at 3 + 4b .. 6 + 4b of what the first m bands list, for every b < m. */
  lemma {:induction false} ListedAt(m: nat, b: nat)
    requires b < m <= |Bands|
    ensures forall i :: 0 <= i < 4 ==> ListedUpTo(m)[3 + 4 * b + i] == BandNodes(b, Bands[b])[i]
    decreases m
  {
    if b < m - 1 {
      ListedAt(m - 1, b);
    }
  }

  /** The input chain opens every list: s3_drop, copy_from_s3, measurement_set. */
  lemma {:induction false} ListedStart(m: nat)
    requires m <= |Bands|
    ensures ListedUpTo(m)[..3] == [S3InNode(), CopyFromS3Node(), MeasurementSetNode()]
  {
    if m > 0 {
      ListedStart(m - 1);
      assert ListedUpTo(m)[..3] == ListedUpTo(m - 1)[..3];
    }
  }

  /**
   * Sixteen drops in construction order: the input chain, four per band,
   * and the barrier; s3_drop -> copy_from_s3 -> measurement_set.
   */
  lemma GraphShape()
    ensures |GraphNodes()| == 3 + 4 * |Bands| + 1 == 16
    ensures GraphNodes()[..3] == [S3InNode(), CopyFromS3Node(), MeasurementSetNode()]
    ensures GraphNodes()[1].inputs == [GraphNodes()[0].uid] && GraphNodes()[1].outputs == [GraphNodes()[2].uid]
    ensures GraphNodes()[15] == BarrierNode()
  {
    ListedStart(|Bands|);
    assert GraphNodes()[..3] == ListedUpTo(|Bands|)[..3];
  }

  /**
   * Band b's mstransform app reads measurement_set and writes the result
   * listed after it; its copy_to_s3 app and S3 output carry no edges.
   */
  lemma GraphBand(b: nat)
    requires b < |Bands|
    ensures forall i :: 0 <= i < 4 ==> GraphNodes()[3 + 4 * b + i] == BandNodes(b, Bands[b])[i]
    ensures GraphNodes()[3 + 4 * b].inputs == [GraphNodes()[2].uid]
    ensures GraphNodes()[3 + 4 * b].outputs == [GraphNodes()[4 + 4 * b].uid]
    ensures GraphNodes()[5 + 4 * b].inputs == [] && GraphNodes()[5 + 4 * b].outputs == []
    ensures GraphNodes()[6 + 4 * b].inputs == [] && GraphNodes()[6 + 4 * b].outputs == []
  {
    var g, l := GraphNodes(), ListedUpTo(|Bands|);
    ListedAt(|Bands|, b);
    ListedStart(|Bands|);
    assert forall k :: 0 <= k < |l| ==> g[k] == l[k];
    assert g[2] == l[..3][2] == MeasurementSetNode();
    var band := BandNodes(b, Bands[b]);
    assert g[3 + 4 * b] == band[0] && g[4 + 4 * b] == band[1];
    assert g[5 + 4 * b] == band[2] && g[6 + 4 * b] == band[3];
  }

  /** The barrier writes nothing and reads measurement_set followed by the three S3 outputs, in band order. */
  lemma BarrierInputs()
    ensures GraphNodes()[15].outputs == []
    ensures GraphNodes()[15].inputs == [GraphNodes()[2].uid, GraphNodes()[6].uid, GraphNodes()[10].uid, GraphNodes()[14].uid]
  {
    GraphShape();
    GraphBand(0);
    GraphBand(1);
    GraphBand(2);
  }

  /** Every drop is named by its own call: the i-th listed drop has oid and uid i. */
  lemma {:induction false} ListedCalls(m: nat)
    requires m <= |Bands|
    ensures forall i :: 0 <= i < 3 + 4 * m ==> ListedUpTo(m)[i].oid == ListedUpTo(m)[i].uid == i
  {
    if m > 0 {
      ListedCalls(m - 1);
      var prev := ListedUpTo(m - 1);
      assert forall i :: 0 <= i < |prev| ==> ListedUpTo(m)[i] == prev[i];
      assert forall i :: |prev| <= i < 3 + 4 * m ==> ListedUpTo(m)[i] == BandNodes(m - 1, Bands[m - 1])[i - |prev|];
    }
  }

  /** No two dropdicts of the graph share an oid or a uid. */
  lemma GraphDictsDistinct(args: Args, observation: string, i: nat, j: nat)
    requires i < j < |GraphNodes()|
    ensures var ds := DictsOf(args, observation, GraphNodes());
      ds[i].oid != ds[j].oid && ds[i].uid != ds[j].uid
  {
    var nodes := GraphNodes();
    ListedCalls(|Bands|);
    assert forall k :: 0 <= k < |nodes| - 1 ==> nodes[k] == ListedUpTo(|Bands|)[k];
    assert nodes[15] == BarrierNode();
    var t1, t2 := OidType(nodes[i].attrs), OidType(nodes[j].attrs);
    if CallOid(t1, nodes[i].oid) == CallOid(t2, nodes[j].oid) {
      CallOidInjective(t1, nodes[i].oid, t2, nodes[j].oid);
    }
  }

  /** s3_drop is the measurement set ms_set of the bucket. */
  lemma S3InKey(args: Args, observation: string)
    ensures var d := DictOf(args, observation, S3InNode());
      && d.kind == Plain && d.attrs["storage"] == Str("s3")
      && d.attrs["bucket"] == Str(args.bucket) && d.attrs["key"] == Str(args.msSet)
  {
  }

  /** Band b's S3 output is written to the bucket under '<min>_<max>/<observation>'. */
  lemma S3OutKey(args: Args, observation: string, b: nat, pair: FrequencyPair)
    ensures var d := DictOf(args, observation, S3OutNode(b, pair));
      && d.kind == Plain && d.attrs["storage"] == Str("s3")
      && d.attrs["bucket"] == Str(args.bucket) && d.attrs["key"] == Str(OutKey(pair, observation))
  {
    var n := S3OutNode(b, pair);
    var d := DictOf(args, observation, n);
    assert n.attrs == S3Out(pair) && n.kind == Plain;
    var m := AttrsOf(args, observation, S3Out(pair), d.oid);
    assert d.attrs == m;
    assert m["storage"] == Str("s3") && m["bucket"] == Str(args.bucket) && m["key"] == Str(OutKey(pair, observation));
  }
}
