/**
 * Names the two standalone graph builders share: the oids handed out by
 * get_oid of aws_chiles02.common and the '<min>_<max>' name of a
 * frequency pair.
 */
module GraphNaming {
  import opened Text
  import opened Drops
  import opened BuildGraphCommon

  /**
   * get_oid and get_uid of aws_chiles02.common, whose text is not part of
   * this model: the k-th get_uid call of a build returns k, and the k-th
   * get_oid call returns an oid in the '<type>__<count>' form of the
   * builder class's get_oid, numbered by k.
   */
  function CallOid(countType: string, k: nat): string
  {
    FormatOid(countType, k)
  }

  /** Different calls name different oids. */
  lemma CallOidInjective(t1: string, k1: nat, t2: string, k2: nat)
    requires CallOid(t1, k1) == CallOid(t2, k2)
    ensures t1 == t2 && k1 == k2
  {
    OidInjective(t1, k1, t2, k2);
  }

  /** '{0}_{1}'.format(min, max) */
  function PairName(pair: FrequencyPair): string
  {
    IntToString(pair.low) + "_" + IntToString(pair.high)
  }

  /** Different frequency pairs have different names. */
  lemma PairNameInjective(p1: FrequencyPair, p2: FrequencyPair)
    requires PairName(p1) == PairName(p2)
    ensures p1 == p2
  {
    SplitAtFirst(IntToString(p1.low), IntToString(p1.high), IntToString(p2.low), IntToString(p2.high), '_');
    IntToStringInjective(p1.low, p2.low);
    IntToStringInjective(p1.high, p2.high);
  }
}
