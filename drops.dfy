/**
 * Drop records of the execution graph. In the pipeline a drop is a
 * dfms `dropdict`, a dictionary whose "type" is 'plain', 'container' or
 * 'app'. Here the kind, oid and uid are fields of their own, every other
 * key lives in `attrs`, and the edges a drop records are its `inputs` and
 * `outputs`, each a list of the other drops' uids.
 */
module Drops {

  /** A drop's uid (a uuid in the pipeline). */
  type Uid = nat

  datatype Kind = Plain | App | Container

  /**
   * An attribute value. `ModuleOf(c)` stands for get_module_name(c) and
   * `CommonConst(n)` for the constant n imported from aws_chiles02.common;
   * neither function's text is part of this model.
   */
  datatype Value =
    | Str(s: string)
    | Int(i: int)
    | Bool(b: bool)
    | ModuleOf(className: string)
    | CommonConst(name: string)

  /**
   * A drop: its kind, its oid, its uid, its other keys and its edges. The
   * oid and the other keys are type parameters so that a graph can record
   * them in the form it builds them in; `Dropdict` is the dictionary form.
   */
  datatype Drop<O, A> = Drop(
    kind: Kind,
    oid: O,
    uid: Uid,
    attrs: A,
    inputs: seq<Uid>,
    outputs: seq<Uid>)

  type Dropdict = Drop<string, map<string, Value>>

  /** A lower and an upper frequency bound, in MHz. */
  datatype FrequencyPair = FrequencyPair(low: int, high: int)

  /** The drop types copy_logfiles_and_shutdown treats as data: 'plain' and 'container'. */
  predicate IsData<O, A>(d: Drop<O, A>) {
    d.kind == Plain || d.kind == Container
  }

  /** A record with no edges yet, as a freshly built dropdict. */
  function NewDrop<O, A>(kind: Kind, oid: O, uid: Uid, attrs: A): (d: Drop<O, A>)
    ensures d.kind == kind && d.oid == oid && d.uid == uid && d.attrs == attrs
    ensures d.inputs == [] && d.outputs == []
  {
    Drop(kind, oid, uid, attrs, [], [])
  }

  /** An edge insertion: the list gains uid u at its end unless it already names u. */
  function Insert(ids: seq<Uid>, u: Uid): (r: seq<Uid>)
    ensures u in r
    ensures forall v :: v in r <==> v in ids || v == u
    ensures |ids| <= |r| <= |ids| + 1 && r[..|ids|] == ids
    ensures u !in ids ==> r == ids + [u]
  {
    if u in ids then ids else ids + [u]
  }

  /** dropdict.addInput: d records other as one of its inputs; nothing else about d changes. */
  function AddInput<O, A>(d: Drop<O, A>, other: Drop<O, A>): (r: Drop<O, A>)
    ensures r == d.(inputs := Insert(d.inputs, other.uid))
    ensures r.kind == d.kind && r.oid == d.oid && r.uid == d.uid && r.attrs == d.attrs && r.outputs == d.outputs
    ensures forall v :: v in r.inputs <==> v in d.inputs || v == other.uid
    ensures |r.inputs| <= |d.inputs| + 1 && r.inputs[..|d.inputs|] == d.inputs
  {
    d.(inputs := Insert(d.inputs, other.uid))
  }

  /** dropdict.addOutput: d records other as one of its outputs; nothing else about d changes. */
  function AddOutput<O, A>(d: Drop<O, A>, other: Drop<O, A>): (r: Drop<O, A>)
    ensures r == d.(outputs := Insert(d.outputs, other.uid))
    ensures r.kind == d.kind && r.oid == d.oid && r.uid == d.uid && r.attrs == d.attrs && r.inputs == d.inputs
    ensures forall v :: v in r.outputs <==> v in d.outputs || v == other.uid
    ensures |r.outputs| <= |d.outputs| + 1 && r.outputs[..|d.outputs|] == d.outputs
  {
    d.(outputs := Insert(d.outputs, other.uid))
  }

  /** The uids of a list of drops, in list order. */
  function Uids<O, A>(ds: seq<Drop<O, A>>): (us: seq<Uid>)
    ensures |us| == |ds| && forall i :: 0 <= i < |ds| ==> us[i] == ds[i].uid
  {
    seq(|ds|, i requires 0 <= i < |ds| => ds[i].uid)
  }

  predicate Distinct(us: seq<Uid>) {
    forall i, j :: 0 <= i < j < |us| ==> us[i] != us[j]
  }
}
