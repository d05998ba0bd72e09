/**
 * The graph builder base class of pipeline/aws_chiles02/build_graph_common.py:
 * per-type oid counters, the growing drop list, the drop factories, the
 * per-node log copy and optional shutdown, and the tagging of app drops.
 */
module BuildGraphCommon {
  import opened Text
  import opened Drops

  /** One entry of a node_details list; the builder reads only its 'ip_address'. */
  datatype InstanceDetails = InstanceDetails(ipAddress: string)

  /** node_details: each instance type with its list of instances, in the dict's iteration order. */
  type NodeDetails = seq<(string, seq<InstanceDetails>)>

  function IpsOf(list: seq<InstanceDetails>): (ips: seq<string>)
    ensures |ips| == |list| && forall i :: 0 <= i < |list| ==> ips[i] == list[i].ipAddress
  {
    seq(|list|, i requires 0 <= i < |list| => list[i].ipAddress)
  }

  lemma IpsOfStep(list: seq<InstanceDetails>, done: seq<string>, j: nat)
    requires j < |list|
    ensures done + IpsOf(list[..j + 1]) == (done + IpsOf(list[..j])) + [list[j].ipAddress]
  {
    assert IpsOf(list[..j + 1]) == IpsOf(list[..j]) + [list[j].ipAddress];
  }

  /** Every ip address of node_details, in the order the builder's nested loops visit them. */
  function IpAddresses(nd: NodeDetails): seq<string>
  {
    if nd == [] then [] else IpAddresses(nd[..|nd| - 1]) + IpsOf(nd[|nd| - 1].1)
  }

  lemma IpAddressesStep(nd: NodeDetails, g: nat)
    requires g < |nd|
    ensures IpAddresses(nd[..g + 1]) == IpAddresses(nd[..g]) + IpsOf(nd[g].1)
  {
    assert nd[..g + 1][..g] == nd[..g];
  }

  /** '{0}__{1:06d}'.format(count_type, count) */
  function FormatOid(countType: string, count: nat): string
  {
    countType + "__" + ZeroPad(NatToString(count), 6)
  }

  lemma OidDigits(n: nat)
    ensures AllDigits(ZeroPad(NatToString(n), 6))
  {
    ParseZeroPadded(n, 6);
  }

  lemma OidParts(t: string, n: nat)
    ensures FormatOid(t, n) == (t + "_") + ['_'] + ZeroPad(NatToString(n), 6)
  {
  }

  /** Distinct (type, count) pairs give distinct oids, even when a type itself ends in '_' or holds "__". */
  lemma OidInjective(t1: string, n1: nat, t2: string, n2: nat)
    requires FormatOid(t1, n1) == FormatOid(t2, n2)
    ensures t1 == t2 && n1 == n2
  {
    OidDigits(n1);
    OidDigits(n2);
    OidParts(t1, n1);
    OidParts(t2, n2);
    SplitAtDigitSuffix(t1 + "_", ZeroPad(NatToString(n1), 6), t2 + "_", ZeroPad(NatToString(n2), 6), '_');
    assert t1 == (t1 + "_")[..|t1|];
    assert t2 == (t2 + "_")[..|t2|];
    ParseZeroPadded(n1, 6);
    ParseZeroPadded(n2, 6);
  }

  /** The count a counters map holds for a type; a missing type has issued none. */
  function CountIn(counters: map<string, nat>, t: string): nat
  {
    if t in counters then counters[t] else 0
  }

  /** The counters after get_oid(t). */
  function Bump(counters: map<string, nat>, t: string): (r: map<string, nat>)
    ensures t in r && r[t] == CountIn(counters, t) + 1
    ensures forall t' :: t' != t ==> CountIn(r, t') == CountIn(counters, t')
  {
    counters[t := CountIn(counters, t) + 1]
  }

  /** The counters after copy_logfiles_and_shutdown has handled one more node. */
  function NodeCounters(counters: map<string, nat>, shutdown: bool): map<string, nat>
  {
    var c := Bump(Bump(counters, CopyLogType), LogS3Type);
    if shutdown then Bump(c, BashType) else c
  }

  /** The uids copy_logfiles_and_shutdown asks for per node: the copy-log app, the log drop, and the shutdown app when shutdown is set. */
  function UidsPerNode(shutdown: bool): nat
  {
    if shutdown then 3 else 2
  }

  /**
   * The counters and the uid count after n nodes: one copy-log oid, one
   * log oid and two uids per node, and a shutdown oid and a third uid when
   * shutdown is set.
   */
  ghost predicate CountedAfter(c0: map<string, nat>, c: map<string, nat>, u0: nat, u: nat, shutdown: bool, n: nat)
  {
    && u == u0 + (if shutdown then 3 * n else 2 * n)
    && CountIn(c, CopyLogType) == CountIn(c0, CopyLogType) + n
    && CountIn(c, LogS3Type) == CountIn(c0, LogS3Type) + n
    && CountIn(c, BashType) == CountIn(c0, BashType) + (if shutdown then n else 0)
    && forall t :: t != CopyLogType && t != LogS3Type && t != BashType ==> CountIn(c, t) == CountIn(c0, t)
  }

  /**
   * Where the numbering stands for the drops copy_logfiles_and_shutdown
   * makes: how many copy-log, log and shutdown oids have been issued, and
   * the next uid.
   */
  datatype IdCursor = IdCursor(copyLog: nat, log: nat, bash: nat, uid: nat)

  function CursorOf(counters: map<string, nat>, uuidCount: nat): IdCursor
  {
    IdCursor(CountIn(counters, CopyLogType), CountIn(counters, LogS3Type), CountIn(counters, BashType), uuidCount)
  }

  /** The cursor after n more nodes. */
  function AdvanceBy(k: IdCursor, shutdown: bool, n: nat): IdCursor
  {
    IdCursor(k.copyLog + n, k.log + n, k.bash + (if shutdown then n else 0), k.uid + (if shutdown then 3 * n else 2 * n))
  }

  /** Counting by CountedAfter is advancing the cursor. */
  lemma CountedCursor(c0: map<string, nat>, c: map<string, nat>, u0: nat, u: nat, shutdown: bool, n: nat)
    requires CountedAfter(c0, c, u0, u, shutdown, n)
    ensures CursorOf(c, u) == AdvanceBy(CursorOf(c0, u0), shutdown, n)
  {
  }

  lemma NodeCountersStep(c0: map<string, nat>, c: map<string, nat>, u0: nat, u: nat, shutdown: bool, n: nat)
    requires CountedAfter(c0, c, u0, u, shutdown, n)
    ensures CountedAfter(c0, NodeCounters(c, shutdown), u0, u + UidsPerNode(shutdown), shutdown, n + 1)
  {
  }

  /** oid has already been handed out by get_oid, given the counters. */
  ghost predicate IssuedBy(counters: map<string, nat>, oid: string)
  {
    exists t, k :: t in counters && 1 <= k <= counters[t] && oid == FormatOid(t, k)
  }

  /** Every oid of a type numbered above its counter, the next one among them, is one the counters have not issued yet. */
  lemma NextOidIsFresh(counters: map<string, nat>, t: string, n: nat)
    requires n > CountIn(counters, t)
    ensures !IssuedBy(counters, FormatOid(t, n))
  {
    var oid := FormatOid(t, n);
    forall t', k | t' in counters && 1 <= k <= counters[t']
      ensures oid != FormatOid(t', k)
    {
      if oid == FormatOid(t', k) {
        OidInjective(t, n, t', k);
      }
    }
  }

  /** Every oid issued before a counter is bumped is still counted as issued afterwards. */
  lemma IssuedGrows(counters: map<string, nat>, t: string)
    ensures forall o :: IssuedBy(counters, o) ==> IssuedBy(counters[t := CountIn(counters, t) + 1], o)
  {
    var c' := counters[t := CountIn(counters, t) + 1];
    forall o | IssuedBy(counters, o) ensures IssuedBy(c', o) {
      var t', k :| t' in counters && 1 <= k <= counters[t'] && o == FormatOid(t', k);
      assert t' in c' && 1 <= k <= c'[t'];
    }
  }

  /** m is among the numbers of type t issued after cursor lo and up to cursor hi. */
  ghost predicate Numbered(lo: IdCursor, hi: IdCursor, t: string, m: nat)
  {
    || (t == CopyLogType && lo.copyLog < m <= hi.copyLog)
    || (t == LogS3Type && lo.log < m <= hi.log)
    || (t == BashType && lo.bash < m <= hi.bash)
  }

  /** Oids of distinct (type, count) pairs differ. */
  lemma OidsDiffer(t1: string, n1: nat, t2: string, n2: nat)
    requires t1 != t2 || n1 != n2
    ensures FormatOid(t1, n1) != FormatOid(t2, n2)
  {
    if FormatOid(t1, n1) == FormatOid(t2, n2) {
      OidInjective(t1, n1, t2, n2);
    }
  }

  /**
   * What numbering hands one drop copy_logfiles_and_shutdown makes: its uid
   * and the type and number its oid is formatted from.
   */
  datatype Stamp = Stamp(uid: nat, t: string, m: nat)

  /** The stamps of one node's listed drops: its copy-log app, then its shutdown app when shutdown is set. */
  function NodeStamps(k: IdCursor, shutdown: bool): seq<Stamp>
  {
    if shutdown then [Stamp(k.uid, CopyLogType, k.copyLog + 1), Stamp(k.uid + 2, BashType, k.bash + 1)]
    else [Stamp(k.uid, CopyLogType, k.copyLog + 1)]
  }

  /** The stamp of one node's log drop. */
  function LogStamp(k: IdCursor): Stamp
  {
    Stamp(k.uid + 1, LogS3Type, k.log + 1)
  }

  function NodesStamps(n: nat, k: IdCursor, shutdown: bool): seq<Stamp>
  {
    if n == 0 then [] else NodesStamps(n - 1, k, shutdown) + NodeStamps(AdvanceBy(k, shutdown, n - 1), shutdown)
  }

  function LogStamps(n: nat, k: IdCursor, shutdown: bool): seq<Stamp>
  {
    if n == 0 then [] else LogStamps(n - 1, k, shutdown) + [LogStamp(AdvanceBy(k, shutdown, n - 1))]
  }

  /** Every stamp has a uid in [lo.uid, hi.uid) and one of the three types, numbered after lo and up to hi. */
  ghost predicate StampsWithin(ss: seq<Stamp>, lo: IdCursor, hi: IdCursor)
  {
    forall j :: 0 <= j < |ss| ==> lo.uid <= ss[j].uid < hi.uid && Numbered(lo, hi, ss[j].t, ss[j].m)
  }

  /** Two stamps share neither a uid nor a (type, number) pair. */
  ghost predicate Differ(a: Stamp, b: Stamp)
  {
    a.uid != b.uid && (a.t != b.t || a.m != b.m)
  }

  ghost predicate StampsIncreasing(ss: seq<Stamp>)
  {
    forall a, b :: 0 <= a < b < |ss| ==> ss[a].uid < ss[b].uid && Differ(ss[a], ss[b])
  }

  ghost predicate StampsBefore(ss: seq<Stamp>, tt: seq<Stamp>)
  {
    forall a, b :: 0 <= a < |ss| && 0 <= b < |tt| ==> ss[a].uid < tt[b].uid && Differ(ss[a], tt[b])
  }

  ghost predicate StampsApart(ss: seq<Stamp>, tt: seq<Stamp>)
  {
    forall a, b :: 0 <= a < |ss| && 0 <= b < |tt| ==> Differ(ss[a], tt[b])
  }

  lemma {:induction false} StampsSize(n: nat, k: IdCursor, shutdown: bool)
    ensures |NodesStamps(n, k, shutdown)| == (if shutdown then 2 * n else n) && |LogStamps(n, k, shutdown)| == n
  {
    if n > 0 {
      StampsSize(n - 1, k, shutdown);
    }
  }

  lemma NodeStampsWithin(k: IdCursor, shutdown: bool)
    ensures StampsWithin(NodeStamps(k, shutdown), k, AdvanceBy(k, shutdown, 1))
    ensures StampsWithin([LogStamp(k)], k, AdvanceBy(k, shutdown, 1))
  {
  }

  lemma StampsWithinConcat(ss: seq<Stamp>, tt: seq<Stamp>, lo: IdCursor, mid: IdCursor, hi: IdCursor)
    requires StampsWithin(ss, lo, mid) && StampsWithin(tt, mid, hi)
    requires lo.uid <= mid.uid <= hi.uid
    requires lo.copyLog <= mid.copyLog <= hi.copyLog && lo.log <= mid.log <= hi.log && lo.bash <= mid.bash <= hi.bash
    ensures StampsWithin(ss + tt, lo, hi)
  {
    forall j | 0 <= j < |ss + tt|
      ensures lo.uid <= (ss + tt)[j].uid < hi.uid && Numbered(lo, hi, (ss + tt)[j].t, (ss + tt)[j].m)
    {
      if j < |ss| {
        assert (ss + tt)[j] == ss[j];
      } else {
        assert (ss + tt)[j] == tt[j - |ss|];
      }
    }
  }

  /** The stamps of n nodes numbered from k fall within the numbering the n nodes advance over. */
  lemma {:induction false} StampsWithinAll(n: nat, k: IdCursor, shutdown: bool)
    ensures StampsWithin(NodesStamps(n, k, shutdown), k, AdvanceBy(k, shutdown, n))
    ensures StampsWithin(LogStamps(n, k, shutdown), k, AdvanceBy(k, shutdown, n))
  {
    if n > 0 {
      var mid, hi := AdvanceBy(k, shutdown, n - 1), AdvanceBy(k, shutdown, n);
      StampsWithinAll(n - 1, k, shutdown);
      NodeStampsWithin(mid, shutdown);
      assert AdvanceBy(mid, shutdown, 1) == hi;
      StampsWithinConcat(NodesStamps(n - 1, k, shutdown), NodeStamps(mid, shutdown), k, mid, hi);
      StampsWithinConcat(LogStamps(n - 1, k, shutdown), [LogStamp(mid)], k, mid, hi);
    }
  }

  /** Stamps of two consecutive stretches of the numbering come one before the other. */
  lemma WithinBefore(ss: seq<Stamp>, tt: seq<Stamp>, lo: IdCursor, mid: IdCursor, hi: IdCursor)
    requires StampsWithin(ss, lo, mid) && StampsWithin(tt, mid, hi)
    ensures StampsBefore(ss, tt)
  {
    assert |BashType| != |CopyLogType| && |BashType| != |LogS3Type| && |CopyLogType| != |LogS3Type|;
  }

  lemma IncreasingConcat(ss: seq<Stamp>, tt: seq<Stamp>)
    requires StampsIncreasing(ss) && StampsIncreasing(tt) && StampsBefore(ss, tt)
    ensures StampsIncreasing(ss + tt)
  {
    forall a, b | 0 <= a < b < |ss + tt|
      ensures (ss + tt)[a].uid < (ss + tt)[b].uid && Differ((ss + tt)[a], (ss + tt)[b])
    {
      if b < |ss| {
        assert (ss + tt)[a] == ss[a] && (ss + tt)[b] == ss[b];
      } else if a < |ss| {
        assert (ss + tt)[a] == ss[a] && (ss + tt)[b] == tt[b - |ss|];
      } else {
        assert (ss + tt)[a] == tt[a - |ss|] && (ss + tt)[b] == tt[b - |ss|];
      }
    }
  }

  lemma ApartConcat(ss: seq<Stamp>, tt: seq<Stamp>, uu: seq<Stamp>, vv: seq<Stamp>)
    requires StampsApart(ss, uu) && StampsBefore(ss, vv) && StampsBefore(uu, tt) && StampsApart(tt, vv)
    ensures StampsApart(ss + tt, uu + vv)
  {
    forall a, b | 0 <= a < |ss + tt| && 0 <= b < |uu + vv|
      ensures Differ((ss + tt)[a], (uu + vv)[b])
    {
      if a < |ss| {
        assert (ss + tt)[a] == ss[a];
      } else {
        assert (ss + tt)[a] == tt[a - |ss|];
      }
      if b < |uu| {
        assert (uu + vv)[b] == uu[b];
      } else {
        assert (uu + vv)[b] == vv[b - |uu|];
      }
    }
  }

  /** Within a node the three drops have three different types and three different uids. */
  lemma NodeStampsApart(k: IdCursor, shutdown: bool)
    ensures StampsIncreasing(NodeStamps(k, shutdown))
    ensures StampsApart(NodeStamps(k, shutdown), [LogStamp(k)])
  {
    assert |BashType| != |CopyLogType| && |BashType| != |LogS3Type| && |CopyLogType| != |LogS3Type|;
  }

  lemma {:induction false} NodesStampsIncreasing(n: nat, k: IdCursor, shutdown: bool)
    ensures StampsIncreasing(NodesStamps(n, k, shutdown))
  {
    if n > 0 {
      var mid, hi := AdvanceBy(k, shutdown, n - 1), AdvanceBy(k, shutdown, n);
      NodesStampsIncreasing(n - 1, k, shutdown);
      StampsWithinAll(n - 1, k, shutdown);
      NodeStampsWithin(mid, shutdown);
      NodeStampsApart(mid, shutdown);
      assert AdvanceBy(mid, shutdown, 1) == hi;
      WithinBefore(NodesStamps(n - 1, k, shutdown), NodeStamps(mid, shutdown), k, mid, hi);
      IncreasingConcat(NodesStamps(n - 1, k, shutdown), NodeStamps(mid, shutdown));
    }
  }

  lemma {:induction false} LogStampsIncreasing(n: nat, k: IdCursor, shutdown: bool)
    ensures StampsIncreasing(LogStamps(n, k, shutdown))
  {
    if n > 0 {
      var mid, hi := AdvanceBy(k, shutdown, n - 1), AdvanceBy(k, shutdown, n);
      LogStampsIncreasing(n - 1, k, shutdown);
      StampsWithinAll(n - 1, k, shutdown);
      NodeStampsWithin(mid, shutdown);
      assert AdvanceBy(mid, shutdown, 1) == hi;
      WithinBefore(LogStamps(n - 1, k, shutdown), [LogStamp(mid)], k, mid, hi);
      IncreasingConcat(LogStamps(n - 1, k, shutdown), [LogStamp(mid)]);
    }
  }

  lemma {:induction false} NodesLogStampsApart(n: nat, k: IdCursor, shutdown: bool)
    ensures StampsApart(NodesStamps(n, k, shutdown), LogStamps(n, k, shutdown))
  {
    if n > 0 {
      var mid, hi := AdvanceBy(k, shutdown, n - 1), AdvanceBy(k, shutdown, n);
      var p, q := NodesStamps(n - 1, k, shutdown), NodeStamps(mid, shutdown);
      var lp, lq := LogStamps(n - 1, k, shutdown), [LogStamp(mid)];
      NodesLogStampsApart(n - 1, k, shutdown);
      StampsWithinAll(n - 1, k, shutdown);
      NodeStampsWithin(mid, shutdown);
      NodeStampsApart(mid, shutdown);
      assert AdvanceBy(mid, shutdown, 1) == hi;
      WithinBefore(p, lq, k, mid, hi);
      WithinBefore(lp, q, k, mid, hi);
      ApartConcat(p, q, lp, lq);
    }
  }

  /** ds carries the stamps ss: the same uids, and oids formatted from their types and numbers. */
  ghost predicate Stamped(ds: seq<Dropdict>, ss: seq<Stamp>)
  {
    |ds| == |ss| && forall j :: 0 <= j < |ds| ==> ds[j].uid == ss[j].uid && ds[j].oid == FormatOid(ss[j].t, ss[j].m)
  }

  lemma StampedConcat(ds: seq<Dropdict>, ss: seq<Stamp>, es: seq<Dropdict>, tt: seq<Stamp>)
    requires Stamped(ds, ss) && Stamped(es, tt)
    ensures Stamped(ds + es, ss + tt)
  {
    forall j | 0 <= j < |ds + es|
      ensures (ds + es)[j].uid == (ss + tt)[j].uid && (ds + es)[j].oid == FormatOid((ss + tt)[j].t, (ss + tt)[j].m)
    {
      if j < |ds| {
        assert (ds + es)[j] == ds[j] && (ss + tt)[j] == ss[j];
      } else {
        assert (ds + es)[j] == es[j - |ds|] && (ss + tt)[j] == tt[j - |ds|];
      }
    }
  }

  lemma AppendAssoc<T>(a: seq<T>, b: seq<T>, c: seq<T>)
    ensures (a + b) + c == a + (b + c)
  {
  }

  lemma SliceOfLeft<T>(p: seq<T>, q: seq<T>, a: nat, b: nat)
    requires a <= b <= |p|
    ensures (p + q)[a..b] == p[a..b]
  {
  }

  lemma SliceOfRight<T>(p: seq<T>, q: seq<T>)
    ensures (p + q)[|p|..|p| + |q|] == q
  {
  }

  /** The first one or two elements of a slice are those of the sequence at its start. */
  lemma SliceHead<T>(s: seq<T>, a: nat, b: nat, t: seq<T>)
    requires a <= b <= |s| && s[a..b] == t
    ensures 0 < |t| ==> s[a] == t[0]
    ensures 1 < |t| ==> s[a + 1] == t[1]
  {
    if 0 < |t| {
      assert s[a..b][0] == s[a];
    }
    if 1 < |t| {
      assert s[a..b][1] == s[a + 1];
    }
  }

  /** Listed in order, the drops have increasing uids and pairwise distinct oids. */
  ghost predicate IdsIncreasing(s: seq<Dropdict>)
  {
    forall a, b :: 0 <= a < b < |s| ==> s[a].uid < s[b].uid && s[a].oid != s[b].oid
  }

  /** No drop of s shares an oid or a uid with a drop of t. */
  ghost predicate Apart(s: seq<Dropdict>, t: seq<Dropdict>)
  {
    forall a, b :: 0 <= a < |s| && 0 <= b < |t| ==> s[a].uid != t[b].uid && s[a].oid != t[b].oid
  }

  lemma IncreasingFromStamps(ds: seq<Dropdict>, ss: seq<Stamp>)
    requires Stamped(ds, ss) && StampsIncreasing(ss)
    ensures IdsIncreasing(ds)
  {
    forall a, b | 0 <= a < b < |ds|
      ensures ds[a].uid < ds[b].uid && ds[a].oid != ds[b].oid
    {
      OidsDiffer(ss[a].t, ss[a].m, ss[b].t, ss[b].m);
    }
  }

  lemma ApartFromStamps(ds: seq<Dropdict>, ss: seq<Stamp>, es: seq<Dropdict>, tt: seq<Stamp>)
    requires Stamped(ds, ss) && Stamped(es, tt) && StampsApart(ss, tt)
    ensures Apart(ds, es)
  {
    forall a, b | 0 <= a < |ds| && 0 <= b < |es|
      ensures ds[a].uid != es[b].uid && ds[a].oid != es[b].oid
    {
      OidsDiffer(ss[a].t, ss[a].m, tt[b].t, tt[b].m);
    }
  }

  /** Drops stamped after counts at least those of some counters have oids those counters never issued. */
  lemma FreshFromStamps(ds: seq<Dropdict>, ss: seq<Stamp>, lo: IdCursor, hi: IdCursor, c: map<string, nat>)
    requires Stamped(ds, ss) && StampsWithin(ss, lo, hi)
    requires CountIn(c, CopyLogType) <= lo.copyLog && CountIn(c, LogS3Type) <= lo.log && CountIn(c, BashType) <= lo.bash
    ensures forall j :: 0 <= j < |ds| ==> lo.uid <= ds[j].uid && !IssuedBy(c, ds[j].oid)
  {
    forall j | 0 <= j < |ds|
      ensures lo.uid <= ds[j].uid && !IssuedBy(c, ds[j].oid)
    {
      NextOidIsFresh(c, ss[j].t, ss[j].m);
    }
  }

  /** The inputs copy_logfiles_and_shutdown gives a copy-log app: every data drop of the list, in list order. */
  function DataInputs(ds: seq<Dropdict>): seq<Uid>
  {
    if ds == [] then []
    else
      var d := ds[|ds| - 1];
      if IsData(d) then Insert(DataInputs(ds[..|ds| - 1]), d.uid) else DataInputs(ds[..|ds| - 1])
  }

  lemma {:induction false} DataInputsSound(ds: seq<Dropdict>, u: Uid) returns (j: nat)
    requires u in DataInputs(ds)
    ensures j < |ds| && IsData(ds[j]) && ds[j].uid == u
  {
    var init := ds[..|ds| - 1];
    if u in DataInputs(init) {
      j := DataInputsSound(init, u);
      assert ds[j] == init[j];
    } else {
      j := |ds| - 1;
    }
  }

  lemma {:induction false} DataInputsComplete(ds: seq<Dropdict>, j: nat)
    requires j < |ds| && IsData(ds[j])
    ensures ds[j].uid in DataInputs(ds)
  {
    var init := ds[..|ds| - 1];
    if j < |init| {
      assert init[j] == ds[j];
      DataInputsComplete(init, j);
    }
  }

  /** A copy-log app's inputs name exactly the 'plain' and 'container' drops of the list. */
  lemma DataInputsExactly(ds: seq<Dropdict>)
    ensures forall u :: u in DataInputs(ds) <==> exists j :: 0 <= j < |ds| && IsData(ds[j]) && ds[j].uid == u
  {
    forall u | u in DataInputs(ds) ensures exists j :: 0 <= j < |ds| && IsData(ds[j]) && ds[j].uid == u {
      var j := DataInputsSound(ds, u);
    }
    forall j | 0 <= j < |ds| && IsData(ds[j]) ensures ds[j].uid in DataInputs(ds) {
      DataInputsComplete(ds, j);
    }
  }

  lemma {:induction false} DataInputsOnlyData(ds: seq<Dropdict>, u: Uid)
    requires forall i :: 0 <= i < |ds| && IsData(ds[i]) ==> ds[i].uid != u
    ensures u !in DataInputs(ds)
  {
    if ds != [] {
      var init := ds[..|ds| - 1];
      assert forall i :: 0 <= i < |init| ==> init[i] == ds[i];
      DataInputsOnlyData(init, u);
    }
  }

  lemma UidsDiffer(ds: seq<Dropdict>, i: nat, j: nat)
    requires Distinct(Uids(ds)) && i < |ds| && j < |ds| && i != j
    ensures ds[i].uid != ds[j].uid
  {
    var us := Uids(ds);
    if i < j {
      assert us[i] != us[j];
    } else {
      assert us[j] != us[i];
    }
  }

  lemma AppUidUnshared(ds: seq<Dropdict>, j: nat)
    requires Distinct(Uids(ds)) && j < |ds| && ds[j].kind == App
    ensures forall i :: 0 <= i < |ds| && IsData(ds[i]) ==> ds[i].uid != ds[j].uid
  {
    forall i | 0 <= i < |ds| && IsData(ds[i]) ensures ds[i].uid != ds[j].uid {
      UidsDiffer(ds, i, j);
    }
  }

  /** When the uids of the list are distinct, no app drop of the list is named as a copy-log input. */
  lemma NoAppInputs(ds: seq<Dropdict>)
    requires Distinct(Uids(ds))
    ensures forall j :: 0 <= j < |ds| && ds[j].kind == App ==> ds[j].uid !in DataInputs(ds)
  {
    forall j | 0 <= j < |ds| && ds[j].kind == App ensures ds[j].uid !in DataInputs(ds) {
      AppUidUnshared(ds, j);
      DataInputsOnlyData(ds, ds[j].uid);
    }
  }

  /** Apps appended after a list do not change the copy-log inputs drawn from it. */
  lemma {:induction false} DataInputsIgnoresApps(base: seq<Dropdict>, extra: seq<Dropdict>)
    requires forall k :: 0 <= k < |extra| ==> extra[k].kind == App
    ensures DataInputs(base + extra) == DataInputs(base)
  {
    if extra != [] {
      var init := extra[..|extra| - 1];
      var all := base + extra;
      assert all[..|all| - 1] == base + init;
      assert all[|all| - 1] == extra[|extra| - 1];
      assert DataInputs(all) == DataInputs(all[..|all| - 1]);
      DataInputsIgnoresApps(base, init);
    } else {
      assert base + extra == base;
    }
  }

  /** tag_all_app_drops on one drop: an app drop's dict is updated with the tags, any other drop is left alone. */
  function Tagged(d: Dropdict, tags: map<string, Value>): (r: Dropdict)
    ensures d.kind != App ==> r == d
    ensures r.kind == d.kind && r.oid == d.oid && r.uid == d.uid && r.inputs == d.inputs && r.outputs == d.outputs
    ensures d.kind == App ==> r.attrs.Keys == d.attrs.Keys + tags.Keys
    ensures d.kind == App ==> forall k :: k in tags ==> r.attrs[k] == tags[k]
    ensures d.kind == App ==> forall k :: k in d.attrs && k !in tags ==> r.attrs[k] == d.attrs[k]
  {
    if d.kind == App then d.(attrs := d.attrs + tags) else d
  }

  const CopyLogType := "copy_log_files_app"
  const LogS3Type := "s3_out"
  const BashType := "bash_shell_app"
  const ShutdownCommand := "sudo shutdown -h +5 \"DFMS node shutting down\" &"
  const LogProfile := "aws-chiles02"

  function AppAttrs(nodeId: string, app: Value, inputErrorThreshold: int): map<string, Value>
  {
    map["app" := app, "input_error_threshold" := Int(inputErrorThreshold), "node" := Str(nodeId)]
  }

  function BashAttrs(nodeId: string, command: string, inputErrorThreshold: int): map<string, Value>
  {
    map["app" := ModuleOf("BashShellApp"), "command" := Str(command),
        "input_error_threshold" := Int(inputErrorThreshold), "node" := Str(nodeId)]
  }

  function S3Attrs(nodeId: string, bucketName: string, key: string, profileName: string): map<string, Value>
  {
    map["storage" := Str("s3"), "expireAfterUse" := Bool(true), "precious" := Bool(false),
        "bucket" := Str(bucketName), "key" := Str(key), "profile_name" := Str(profileName), "node" := Str(nodeId)]
  }

  /** The S3 key of a node's log archive: '<session_id>/<node_id>.tar'. */
  function LogKey(sessionId: string, nodeId: string): string
  {
    sessionId + "/" + nodeId + ".tar"
  }

  class AbstractBuildGraph<C> {
    var dropList: seq<Dropdict>
    var startOids: seq<string>
    var mapCarryOverData: map<string, C>
    const bucketName: string
    const shutdown: bool
    const nodeDetails: NodeDetails
    const volume: string
    const sessionId: string
    var counters: map<string, nat>
    /** Stands for uuid4: the uids handed out so far are exactly 0 .. uuidCount - 1. */
    var uuidCount: nat

    /**
     * `newCarryOverData` is the value the subclass's new_carry_over_data
     * returns; every listed ip address gets one entry of it.
     */
    constructor (bucketName: string, shutdown: bool, nodeDetails: NodeDetails, volume: string,
                 sessionId: string, newCarryOverData: C)
      ensures this.bucketName == bucketName && this.shutdown == shutdown && this.nodeDetails == nodeDetails
      ensures this.volume == volume && this.sessionId == sessionId
      ensures dropList == [] && startOids == [] && counters == map[] && uuidCount == 0
      ensures forall ip :: ip in mapCarryOverData <==> ip in IpAddresses(nodeDetails)
      ensures forall ip :: ip in mapCarryOverData ==> mapCarryOverData[ip] == newCarryOverData
    {
      var carry: map<string, C> := map[];
      var g := 0;
      while g < |nodeDetails|
        invariant 0 <= g <= |nodeDetails|
        invariant forall ip :: ip in carry <==> ip in IpAddresses(nodeDetails[..g])
        invariant forall ip :: ip in carry ==> carry[ip] == newCarryOverData
      {
        var listIps := nodeDetails[g].1;
        var j := 0;
        while j < |listIps|
          invariant 0 <= j <= |listIps|
          invariant forall ip :: ip in carry <==> ip in IpAddresses(nodeDetails[..g]) + IpsOf(listIps[..j])
          invariant forall ip :: ip in carry ==> carry[ip] == newCarryOverData
        {
          assert IpsOf(listIps[..j + 1]) == IpsOf(listIps[..j]) + [listIps[j].ipAddress];
          carry := carry[listIps[j].ipAddress := newCarryOverData];
          j := j + 1;
        }
        assert listIps[..j] == listIps;
        IpAddressesStep(nodeDetails, g);
        g := g + 1;
      }
      assert nodeDetails[..g] == nodeDetails;
      this.dropList := [];
      this.startOids := [];
      this.mapCarryOverData := carry;
      this.bucketName := bucketName;
      this.shutdown := shutdown;
      this.nodeDetails := nodeDetails;
      this.volume := volume;
      this.sessionId := sessionId;
      this.counters := map[];
      this.uuidCount := 0;
    }

    function CountOf(t: string): nat
      reads this
    {
      CountIn(counters, t)
    }

    method Append(drop: Dropdict)
      modifies this`dropList
      ensures dropList == old(dropList) + [drop]
    {
      dropList := dropList + [drop];
    }

    /**
     * Bumps the counter of countType alone and returns '<type>__<count>'
     * with the count zero-padded to six digits; the oid was never issued
     * before and stays issued.
     */
    method GetOid(countType: string) returns (oid: string)
      modifies this`counters
      ensures counters == Bump(old(counters), countType)
      ensures oid == FormatOid(countType, CountOf(countType))
      ensures old(CountOf(countType)) == 0 ==> oid == countType + "__000001"
      ensures !IssuedBy(old(counters), oid) && IssuedBy(counters, oid)
      ensures forall o :: IssuedBy(old(counters), o) ==> IssuedBy(counters, o)
    {
      var count: nat;
      if countType !in counters {
        count := 1;
      } else {
        count := counters[countType] + 1;
      }
      NextOidIsFresh(counters, countType, count);
      IssuedGrows(counters, countType);
      counters := counters[countType := count];
      oid := FormatOid(countType, count);
      assert countType in counters && 1 <= count <= counters[countType];
    }

    /** A uid never handed out before by this builder. */
    method GetUuid() returns (uid: Uid)
      modifies this`uuidCount
      ensures uid == old(uuidCount) && uuidCount == old(uuidCount) + 1
    {
      uid := uuidCount;
      uuidCount := uuidCount + 1;
    }

    /** One drop was made: the counter of its oid type and the uid count each went up by one. */
    twostate predicate Issued(t: string)
      reads this
    {
      counters == Bump(old(counters), t) && uuidCount == old(uuidCount) + 1
    }

    method CreateMemoryDrop(nodeId: string, oid: string := "memory_drop") returns (drop: Dropdict)
      modifies this`counters, this`uuidCount
      ensures Issued(oid)
      ensures drop == NewDrop(Plain, FormatOid(oid, CountOf(oid)), old(uuidCount),
                              map["storage" := Str("memory"), "node" := Str(nodeId)])
    {
      var oidText := GetOid(oid);
      var uid := GetUuid();
      drop := NewDrop(Plain, oidText, uid, map["storage" := Str("memory"), "node" := Str(nodeId)]);
    }

    method CreateBashShellApp(nodeId: string, command: string, oid: string := BashType,
                              inputErrorThreshold: int := 100) returns (drop: Dropdict)
      modifies this`counters, this`uuidCount
      ensures Issued(oid)
      ensures drop == NewDrop(App, FormatOid(oid, CountOf(oid)), old(uuidCount),
                              BashAttrs(nodeId, command, inputErrorThreshold))
    {
      var oidText := GetOid(oid);
      var uid := GetUuid();
      drop := NewDrop(App, oidText, uid, BashAttrs(nodeId, command, inputErrorThreshold));
    }

    method CreateBarrierApp(nodeId: string, oid: string := "chiles02_barrier_app",
                            inputErrorThreshold: int := 100) returns (drop: Dropdict)
      modifies this`counters, this`uuidCount
      ensures Issued(oid)
      ensures drop == NewDrop(App, FormatOid(oid, CountOf(oid)), old(uuidCount),
                              AppAttrs(nodeId, ModuleOf("Chiles02BarrierAppDROP"), inputErrorThreshold))
    {
      var oidText := GetOid(oid);
      var uid := GetUuid();
      drop := NewDrop(App, oidText, uid, AppAttrs(nodeId, ModuleOf("Chiles02BarrierAppDROP"), inputErrorThreshold));
    }

    /** The keyword arguments are merged last, so they override the fixed keys as dict.update does. */
    method CreateApp(nodeId: string, app: Value, oid: string, inputErrorThreshold: int := 100,
                     keyWordArguments: map<string, Value> := map[]) returns (drop: Dropdict)
      modifies this`counters, this`uuidCount
      ensures Issued(oid)
      ensures drop == NewDrop(App, FormatOid(oid, CountOf(oid)), old(uuidCount),
                              AppAttrs(nodeId, app, inputErrorThreshold) + keyWordArguments)
    {
      var oidText := GetOid(oid);
      var uid := GetUuid();
      drop := NewDrop(App, oidText, uid, AppAttrs(nodeId, app, inputErrorThreshold) + keyWordArguments);
    }

    method CreateDockerApp(nodeId: string, app: Value, oid: string, image: string, user: string := "ec2-user",
                           inputErrorThreshold: int := 100, keyWordArguments: map<string, Value> := map[])
      returns (drop: Dropdict)
      modifies this`counters, this`uuidCount
      ensures Issued(oid)
      ensures drop == NewDrop(App, FormatOid(oid, CountOf(oid)), old(uuidCount),
                              AppAttrs(nodeId, app, inputErrorThreshold)["image" := Str(image)]["user" := Str(user)]
                              + keyWordArguments)
    {
      var oidText := GetOid(oid);
      var uid := GetUuid();
      drop := NewDrop(App, oidText, uid,
                      AppAttrs(nodeId, app, inputErrorThreshold)["image" := Str(image)]["user" := Str(user)]
                      + keyWordArguments);
    }

    /** The container's directory is the volume joined with its own oid. */
    method CreateDirectoryContainer(nodeId: string, oid: string := "directory_container",
                                    expireAfterUse: bool := true) returns (drop: Dropdict)
      modifies this`counters, this`uuidCount
      ensures Issued(oid)
      ensures drop == NewDrop(Container, FormatOid(oid, CountOf(oid)), old(uuidCount),
                              map["container" := ModuleOf("DirectoryContainer"), "precious" := Bool(false),
                                  "dirname" := Str(PathJoin(volume, FormatOid(oid, CountOf(oid)))),
                                  "check_exists" := Bool(false), "expireAfterUse" := Bool(expireAfterUse),
                                  "node" := Str(nodeId)])
    {
      var oidText := GetOid(oid);
      var uid := GetUuid();
      drop := NewDrop(Container, oidText, uid,
                      map["container" := ModuleOf("DirectoryContainer"), "precious" := Bool(false),
                          "dirname" := Str(PathJoin(volume, oidText)), "check_exists" := Bool(false),
                          "expireAfterUse" := Bool(expireAfterUse), "node" := Str(nodeId)]);
    }

    method CreateS3Drop(nodeId: string, bucketName: string, key: string, profileName: string,
                        oid: string := "s3") returns (drop: Dropdict)
      modifies this`counters, this`uuidCount
      ensures Issued(oid)
      ensures drop == NewDrop(Plain, FormatOid(oid, CountOf(oid)), old(uuidCount),
                              S3Attrs(nodeId, bucketName, key, profileName))
    {
      var oidText := GetOid(oid);
      var uid := GetUuid();
      drop := NewDrop(Plain, oidText, uid, S3Attrs(nodeId, bucketName, key, profileName));
    }

    method CreateJsonDrop(nodeId: string, oid: string := "json") returns (drop: Dropdict)
      modifies this`counters, this`uuidCount
      ensures Issued(oid)
      ensures drop == NewDrop(Plain, FormatOid(oid, CountOf(oid)), old(uuidCount),
                              map["storage" := Str("json"), "precious" := Bool(false),
                                  "dirname" := Str(PathJoin(volume, FormatOid(oid, CountOf(oid)))),
                                  "check_exists" := Bool(false), "node" := Str(nodeId)])
    {
      var oidText := GetOid(oid);
      var uid := GetUuid();
      drop := NewDrop(Plain, oidText, uid,
                      map["storage" := Str("json"), "precious" := Bool(false),
                          "dirname" := Str(PathJoin(volume, oidText)), "check_exists" := Bool(false),
                          "node" := Str(nodeId)]);
    }

    /** Where the drops of the i-th node start among those copy_logfiles_and_shutdown appends. */
    function NodeSlot(base: nat, i: nat): nat
    {
      base + (if shutdown then 2 * i else i)
    }

    /**
     * The copy-log app of node ip when the numbering stands at k: the next
     * copy-log oid and the next uid, on node ip, fed by inputs and writing
     * the node's log drop, whose uid comes next.
     */
    function CopyLogApp(inputs: seq<Uid>, ip: string, k: IdCursor): Dropdict
    {
      Drop(App, FormatOid(CopyLogType, k.copyLog + 1), k.uid, AppAttrs(ip, ModuleOf("CopyLogFilesApp"), 100), inputs, [k.uid + 1])
    }

    /** The S3 drop node ip's logs go to, '<session_id>/<ip>.tar' in the bucket; made, wired, never listed. */
    function LogDrop(ip: string, k: IdCursor): Dropdict
    {
      NewDrop(Plain, FormatOid(LogS3Type, k.log + 1), k.uid + 1, S3Attrs(ip, bucketName, LogKey(sessionId, ip), LogProfile))
    }

    /** The app that shuts node ip down once its log drop is written. */
    function ShutdownApp(ip: string, k: IdCursor): Dropdict
    {
      Drop(App, FormatOid(BashType, k.bash + 1), k.uid + 2, BashAttrs(ip, ShutdownCommand, 100), [k.uid + 1], [])
    }

    /** What one node adds to the list: its copy-log app, then its shutdown app when shutdown is set. */
    function NodeDrops(inputs: seq<Uid>, ip: string, k: IdCursor): seq<Dropdict>
    {
      if shutdown then [CopyLogApp(inputs, ip, k), ShutdownApp(ip, k)] else [CopyLogApp(inputs, ip, k)]
    }

    /** What copy_logfiles_and_shutdown adds to the list for the ips, in order, numbered from k. */
    function NodesDrops(inputs: seq<Uid>, ips: seq<string>, k: IdCursor): seq<Dropdict>
      decreases |ips|
    {
      if ips == [] then []
      else NodesDrops(inputs, ips[..|ips| - 1], k) + NodeDrops(inputs, ips[|ips| - 1], AdvanceBy(k, shutdown, |ips| - 1))
    }

    /** The log drops copy_logfiles_and_shutdown makes for the ips. */
    function LogDrops(ips: seq<string>, k: IdCursor): seq<Dropdict>
      decreases |ips|
    {
      if ips == [] then [] else LogDrops(ips[..|ips| - 1], k) + [LogDrop(ips[|ips| - 1], AdvanceBy(k, shutdown, |ips| - 1))]
    }

    /** One more ip appends its node's drops, numbered after those of the ips before it. */
    lemma NodesDropsSnoc(inputs: seq<Uid>, ips: seq<string>, ip: string, k: IdCursor)
      ensures NodesDrops(inputs, ips + [ip], k) == NodesDrops(inputs, ips, k) + NodeDrops(inputs, ip, AdvanceBy(k, shutdown, |ips|))
      ensures LogDrops(ips + [ip], k) == LogDrops(ips, k) + [LogDrop(ip, AdvanceBy(k, shutdown, |ips|))]
    {
      assert (ips + [ip])[..|ips|] == ips;
    }

    lemma {:induction false} NodesDropsSize(inputs: seq<Uid>, ips: seq<string>, k: IdCursor)
      ensures |NodesDrops(inputs, ips, k)| == NodeSlot(0, |ips|) && |LogDrops(ips, k)| == |ips|
      decreases |ips|
    {
      if ips != [] {
        NodesDropsSize(inputs, ips[..|ips| - 1], k);
      }
    }

    /**
     * Node by node: the i-th ip's copy-log app sits at NodeSlot(0, i) and,
     * when shutdown is set, its shutdown app right after it; both, and its
     * log drop, are numbered as the i-th node from k.
     */
    lemma NodeAt(inputs: seq<Uid>, ips: seq<string>, k: IdCursor, i: nat)
      requires i < |ips|
      ensures |NodesDrops(inputs, ips, k)| == NodeSlot(0, |ips|) && |LogDrops(ips, k)| == |ips|
      ensures NodesDrops(inputs, ips, k)[NodeSlot(0, i)] == CopyLogApp(inputs, ips[i], AdvanceBy(k, shutdown, i))
      ensures shutdown ==> NodesDrops(inputs, ips, k)[NodeSlot(0, i) + 1] == ShutdownApp(ips[i], AdvanceBy(k, shutdown, i))
      ensures LogDrops(ips, k)[i] == LogDrop(ips[i], AdvanceBy(k, shutdown, i))
    {
      NodesDropsSize(inputs, ips, k);
      NodeDropsAt(inputs, ips, k, i);
      SliceHead(NodesDrops(inputs, ips, k), NodeSlot(0, i), NodeSlot(0, i + 1), NodeDrops(inputs, ips[i], AdvanceBy(k, shutdown, i)));
      LogDropAt(ips, k, i);
    }

    lemma {:induction false} NodeDropsAt(inputs: seq<Uid>, ips: seq<string>, k: IdCursor, i: nat)
      requires i < |ips|
      ensures |NodesDrops(inputs, ips, k)| == NodeSlot(0, |ips|)
      ensures NodesDrops(inputs, ips, k)[NodeSlot(0, i)..NodeSlot(0, i + 1)] == NodeDrops(inputs, ips[i], AdvanceBy(k, shutdown, i))
      decreases |ips|
    {
      var n := |ips| - 1;
      var p, q := NodesDrops(inputs, ips[..n], k), NodeDrops(inputs, ips[n], AdvanceBy(k, shutdown, n));
      NodesDropsSize(inputs, ips, k);
      NodesDropsSize(inputs, ips[..n], k);
      var all, a, b := NodesDrops(inputs, ips, k), NodeSlot(0, i), NodeSlot(0, i + 1);
      assert all == p + q;
      if i < n {
        NodeDropsAt(inputs, ips[..n], k, i);
        assert ips[..n][i] == ips[i];
        SliceOfLeft(p, q, a, b);
      } else {
        assert i == n;
        assert a == |p| && b == |p| + |q|;
        SliceOfRight(p, q);
      }
    }

    lemma {:induction false} LogDropAt(ips: seq<string>, k: IdCursor, i: nat)
      requires i < |ips|
      ensures |LogDrops(ips, k)| == |ips|
      ensures LogDrops(ips, k)[i] == LogDrop(ips[i], AdvanceBy(k, shutdown, i))
      decreases |ips|
    {
      var n := |ips| - 1;
      var p := LogDrops(ips[..n], k);
      NodesDropsSize([], ips, k);
      NodesDropsSize([], ips[..n], k);
      assert LogDrops(ips, k) == p + [LogDrop(ips[n], AdvanceBy(k, shutdown, n))];
      if i < n {
        LogDropAt(ips[..n], k, i);
        assert ips[..n][i] == ips[i];
        assert LogDrops(ips, k)[i] == p[i];
      } else {
        assert i == n && |p| == n;
      }
    }

    /** Every drop copy_logfiles_and_shutdown lists is an app. */
    lemma {:induction false} NodesDropsAreApps(inputs: seq<Uid>, ips: seq<string>, k: IdCursor)
      ensures forall j :: 0 <= j < |NodesDrops(inputs, ips, k)| ==> NodesDrops(inputs, ips, k)[j].kind == App
      decreases |ips|
    {
      if ips != [] {
        NodesDropsAreApps(inputs, ips[..|ips| - 1], k);
      }
    }

    /** The drops one node adds, and its log drop, carry the node's stamps. */
    lemma NodeStamped(inputs: seq<Uid>, ip: string, k: IdCursor)
      ensures Stamped(NodeDrops(inputs, ip, k), NodeStamps(k, shutdown))
      ensures Stamped([LogDrop(ip, k)], [LogStamp(k)])
    {
    }

    /** The drops copy_logfiles_and_shutdown makes for the ips carry the stamps of as many nodes numbered from k. */
    lemma {:induction false} NodesStamped(inputs: seq<Uid>, ips: seq<string>, k: IdCursor)
      ensures Stamped(NodesDrops(inputs, ips, k), NodesStamps(|ips|, k, shutdown))
      ensures Stamped(LogDrops(ips, k), LogStamps(|ips|, k, shutdown))
      decreases |ips|
    {
      if ips != [] {
        var n := |ips| - 1;
        var mid := AdvanceBy(k, shutdown, n);
        assert |ips[..n]| == n;
        NodesStamped(inputs, ips[..n], k);
        NodeStamped(inputs, ips[n], mid);
        StampedConcat(NodesDrops(inputs, ips[..n], k), NodesStamps(n, k, shutdown), NodeDrops(inputs, ips[n], mid), NodeStamps(mid, shutdown));
        StampedConcat(LogDrops(ips[..n], k), LogStamps(n, k, shutdown), [LogDrop(ips[n], mid)], [LogStamp(mid)]);
      }
    }

    /**
     * No two of the drops copy_logfiles_and_shutdown makes share an oid or
     * a uid: the listed ones and the log drops each have increasing uids in
     * order, and no log drop shares an id with a listed one.
     */
    lemma NodesIdsDistinct(inputs: seq<Uid>, ips: seq<string>, k: IdCursor)
      ensures IdsIncreasing(NodesDrops(inputs, ips, k))
      ensures IdsIncreasing(LogDrops(ips, k))
      ensures Apart(NodesDrops(inputs, ips, k), LogDrops(ips, k))
    {
      var n := |ips|;
      NodesStamped(inputs, ips, k);
      NodesStampsIncreasing(n, k, shutdown);
      LogStampsIncreasing(n, k, shutdown);
      NodesLogStampsApart(n, k, shutdown);
      IncreasingFromStamps(NodesDrops(inputs, ips, k), NodesStamps(n, k, shutdown));
      IncreasingFromStamps(LogDrops(ips, k), LogStamps(n, k, shutdown));
      ApartFromStamps(NodesDrops(inputs, ips, k), NodesStamps(n, k, shutdown), LogDrops(ips, k), LogStamps(n, k, shutdown));
    }

    /**
     * The drops copy_logfiles_and_shutdown makes, listed or log drops, have
     * uids from k.uid on and oids that no counters which had issued at most
     * k's counts of the three types had issued.
     */
    lemma NodesIdsFresh(inputs: seq<Uid>, ips: seq<string>, k: IdCursor, c: map<string, nat>)
      requires CountIn(c, CopyLogType) <= k.copyLog && CountIn(c, LogS3Type) <= k.log && CountIn(c, BashType) <= k.bash
      ensures forall j :: 0 <= j < |NodesDrops(inputs, ips, k)| ==>
                k.uid <= NodesDrops(inputs, ips, k)[j].uid && !IssuedBy(c, NodesDrops(inputs, ips, k)[j].oid)
      ensures forall j :: 0 <= j < |LogDrops(ips, k)| ==> k.uid <= LogDrops(ips, k)[j].uid && !IssuedBy(c, LogDrops(ips, k)[j].oid)
    {
      var hi := AdvanceBy(k, shutdown, |ips|);
      NodesStamped(inputs, ips, k);
      StampsWithinAll(|ips|, k, shutdown);
      FreshFromStamps(NodesDrops(inputs, ips, k), NodesStamps(|ips|, k, shutdown), k, hi, c);
      FreshFromStamps(LogDrops(ips, k), LogStamps(|ips|, k, shutdown), k, hi, c);
    }

    /** The inner loop of copy_logfiles_and_shutdown: app gains, in list order, an input edge from every data drop. */
    method WireDataInputs(app: Dropdict) returns (r: Dropdict)
      requires app.inputs == []
      ensures r == app.(inputs := DataInputs(dropList))
    {
      r := app;
      var q := 0;
      while q < |dropList|
        invariant 0 <= q <= |dropList|
        invariant r == app.(inputs := DataInputs(dropList[..q]))
      {
        assert dropList[..q + 1][..q] == dropList[..q];
        if dropList[q].kind == Plain || dropList[q].kind == Container {
          r := AddInput(r, dropList[q]);
        }
        q := q + 1;
      }
      assert dropList[..q] == dropList;
    }

    /**
     * The body of copy_logfiles_and_shutdown for one node: the copy-log app
     * takes as inputs every data drop listed so far, all of which lie in
     * base since only apps follow it.
     */
    method AddNodeLogs(nodeId: string, ghost base: seq<Dropdict>, ghost rest: seq<Dropdict>) returns (ghost log: Dropdict)
      requires dropList == base + rest
      requires forall k :: 0 <= k < |rest| ==> rest[k].kind == App
      modifies this`dropList, this`counters, this`uuidCount
      ensures dropList == old(dropList) + NodeDrops(DataInputs(base), nodeId, CursorOf(old(counters), old(uuidCount)))
      ensures log == LogDrop(nodeId, CursorOf(old(counters), old(uuidCount)))
      ensures counters == NodeCounters(old(counters), shutdown)
      ensures uuidCount == old(uuidCount) + UidsPerNode(shutdown)
    {
      var s3DropOut := AddCopyLog(nodeId, base, rest);
      if shutdown {
        assert |BashType| != |CopyLogType| && |BashType| != |LogS3Type|;
        assert CountIn(counters, BashType) == CountIn(old(counters), BashType);
        var shutdownDrop := CreateBashShellApp(nodeId, ShutdownCommand);
        shutdownDrop := AddInput(shutdownDrop, s3DropOut);
        Append(shutdownDrop);
      }
      log := s3DropOut;
    }

    /**
     * The copy-log app of one node, listed and then given as inputs every
     * data drop of base; its output is added afterwards. The listed dict and
     * the app are one object in the source, so the wired app is written
     * back into its slot.
     */
    method AppendCopyLogApp(nodeId: string, ghost base: seq<Dropdict>, ghost rest: seq<Dropdict>) returns (app: Dropdict)
      requires dropList == base + rest
      requires forall k :: 0 <= k < |rest| ==> rest[k].kind == App
      modifies this`dropList, this`counters, this`uuidCount
      ensures dropList == old(dropList) + [app]
      ensures app.kind == App && app.attrs == AppAttrs(nodeId, ModuleOf("CopyLogFilesApp"), 100)
      ensures app.inputs == DataInputs(base) && app.outputs == []
      ensures app.oid == FormatOid(CopyLogType, CountIn(old(counters), CopyLogType) + 1) && app.uid == old(uuidCount)
      ensures counters == Bump(old(counters), CopyLogType) && uuidCount == old(uuidCount) + 1
    {
      var index := |dropList|;
      app := CreateApp(nodeId, ModuleOf("CopyLogFilesApp"), CopyLogType);
      assert AppAttrs(nodeId, ModuleOf("CopyLogFilesApp"), 100) + map[] == AppAttrs(nodeId, ModuleOf("CopyLogFilesApp"), 100);
      Append(app);
      ghost var created := app;
      assert dropList == base + (rest + [created]);
      DataInputsIgnoresApps(base, rest + [created]);

      app := WireDataInputs(app);
      dropList := dropList[index := app];
      assert dropList == old(dropList) + [app];
    }

    /**
     * The copy-log half of one node: an app fed by every data drop of base
     * and writing the node's S3 log drop, which is returned but not listed.
     */
    method AddCopyLog(nodeId: string, ghost base: seq<Dropdict>, ghost rest: seq<Dropdict>) returns (log: Dropdict)
      requires dropList == base + rest
      requires forall k :: 0 <= k < |rest| ==> rest[k].kind == App
      modifies this`dropList, this`counters, this`uuidCount
      ensures dropList == old(dropList) + [CopyLogApp(DataInputs(base), nodeId, CursorOf(old(counters), old(uuidCount)))]
      ensures log == LogDrop(nodeId, CursorOf(old(counters), old(uuidCount)))
      ensures counters == Bump(Bump(old(counters), CopyLogType), LogS3Type)
      ensures uuidCount == old(uuidCount) + 2
    {
      var index := |dropList|;
      var copyLogDrop := AppendCopyLogApp(nodeId, base, rest);
      assert |LogS3Type| != |CopyLogType|;
      log := CreateS3Drop(nodeId, bucketName, LogKey(sessionId, nodeId), LogProfile, LogS3Type);
      copyLogDrop := AddOutput(copyLogDrop, log);
      dropList := dropList[index := copyLogDrop];
    }

    /** One pass of that loop: the next ip's drops, numbered as its place among the ips says. */
    method CopyLogsOfNode(nodeId: string, ghost base: seq<Dropdict>, ghost c0: map<string, nat>, ghost u0: nat,
                          ghost done: seq<string>) returns (ghost log: Dropdict)
      requires dropList == base + NodesDrops(DataInputs(base), done, CursorOf(c0, u0))
      requires CountedAfter(c0, counters, u0, uuidCount, shutdown, |done|)
      modifies this`dropList, this`counters, this`uuidCount
      ensures dropList == base + NodesDrops(DataInputs(base), done + [nodeId], CursorOf(c0, u0))
      ensures log == LogDrop(nodeId, AdvanceBy(CursorOf(c0, u0), shutdown, |done|))
      ensures CountedAfter(c0, counters, u0, uuidCount, shutdown, |done| + 1)
    {
      ghost var inputs, k := DataInputs(base), CursorOf(c0, u0);
      NodesDropsAreApps(inputs, done, k);
      CountedCursor(c0, counters, u0, uuidCount, shutdown, |done|);
      NodeCountersStep(c0, counters, u0, uuidCount, shutdown, |done|);
      NodesDropsSnoc(inputs, done, nodeId, k);
      log := AddNodeLogs(nodeId, base, NodesDrops(inputs, done, k));
      AppendAssoc(base, NodesDrops(inputs, done, k), NodeDrops(inputs, nodeId, AdvanceBy(k, shutdown, |done|)));
    }

    /** The loop of copy_logfiles_and_shutdown over one instance list of node_details. */
    method CopyLogsOfList(listIps: seq<InstanceDetails>, ghost base: seq<Dropdict>, ghost c0: map<string, nat>, ghost u0: nat,
                          ghost done: seq<string>, ghost logs: seq<Dropdict>) returns (ghost logDrops: seq<Dropdict>)
      requires dropList == base + NodesDrops(DataInputs(base), done, CursorOf(c0, u0))
      requires logs == LogDrops(done, CursorOf(c0, u0))
      requires CountedAfter(c0, counters, u0, uuidCount, shutdown, |done|)
      modifies this`dropList, this`counters, this`uuidCount
      ensures dropList == base + NodesDrops(DataInputs(base), done + IpsOf(listIps), CursorOf(c0, u0))
      ensures logDrops == LogDrops(done + IpsOf(listIps), CursorOf(c0, u0))
      ensures CountedAfter(c0, counters, u0, uuidCount, shutdown, |done| + |listIps|)
    {
      logDrops := logs;
      ghost var inputs, k := DataInputs(base), CursorOf(c0, u0);
      ghost var now := done;
      var j := 0;
      assert listIps[..0] == [] && IpsOf([]) == [] && done + [] == done;
      while j < |listIps|
        invariant 0 <= j <= |listIps|
        invariant now == done + IpsOf(listIps[..j]) && |now| == |done| + j
        invariant dropList == base + NodesDrops(inputs, now, k)
        invariant logDrops == LogDrops(now, k)
        invariant CountedAfter(c0, counters, u0, uuidCount, shutdown, |now|)
      {
        var nodeId := listIps[j].ipAddress;
        ghost var log: Dropdict;
        log := CopyLogsOfNode(nodeId, base, c0, u0, now);
        NodesDropsSnoc(inputs, now, nodeId, k);
        logDrops := logDrops + [log];
        IpsOfStep(listIps, done, j);
        now := now + [nodeId];
        j := j + 1;
      }
      assert listIps[..j] == listIps;
      assert now == done + IpsOf(listIps) && |now| == |done| + |listIps|;
    }

    /**
     * For every ip of node_details, in order: a copy-log app wired to every
     * data drop listed before the call and writing '<session_id>/<ip>.tar'
     * to S3, and a shutdown app after it when shutdown is set. `logDrops`
     * are the log S3 drops, which are never listed. Node by node, every new
     * drop takes the next oid of its type and the next uid.
     */
    method CopyLogfilesAndShutdown() returns (ghost logDrops: seq<Dropdict>)
      modifies this`dropList, this`counters, this`uuidCount
      ensures dropList == old(dropList) +
                NodesDrops(DataInputs(old(dropList)), IpAddresses(nodeDetails), CursorOf(old(counters), old(uuidCount)))
      ensures logDrops == LogDrops(IpAddresses(nodeDetails), CursorOf(old(counters), old(uuidCount)))
      ensures CountedAfter(old(counters), counters, old(uuidCount), uuidCount, shutdown, |IpAddresses(nodeDetails)|)
    {
      ghost var base, c0, u0 := dropList, counters, uuidCount;
      ghost var inputs, k := DataInputs(base), CursorOf(c0, u0);
      ghost var done: seq<string> := [];
      logDrops := [];
      var g := 0;
      while g < |nodeDetails|
        invariant 0 <= g <= |nodeDetails|
        invariant done == IpAddresses(nodeDetails[..g])
        invariant dropList == base + NodesDrops(inputs, done, k)
        invariant logDrops == LogDrops(done, k)
        invariant CountedAfter(c0, counters, u0, uuidCount, shutdown, |done|)
      {
        logDrops := CopyLogsOfList(nodeDetails[g].1, base, c0, u0, done, logDrops);
        IpAddressesStep(nodeDetails, g);
        done := done + IpsOf(nodeDetails[g].1);
        g := g + 1;
      }
      assert nodeDetails[..g] == nodeDetails;
    }

    /** Updates every app drop of the list with the tags; drops of any other type are unchanged. */
    method TagAllAppDrops(tags: map<string, Value>)
      modifies this`dropList
      ensures |dropList| == |old(dropList)|
      ensures forall i :: 0 <= i < |dropList| ==> dropList[i] == Tagged(old(dropList)[i], tags)
    {
      var i := 0;
      while i < |dropList|
        invariant 0 <= i <= |dropList| == |old(dropList)|
        invariant forall k :: 0 <= k < i ==> dropList[k] == Tagged(old(dropList)[k], tags)
        invariant forall k :: i <= k < |dropList| ==> dropList[k] == old(dropList)[k]
      {
        if dropList[i].kind == App {
          dropList := dropList[i := dropList[i].(attrs := dropList[i].attrs + tags)];
        }
        i := i + 1;
      }
    }
  }
}
