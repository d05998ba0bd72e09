/**
 * The S3 URL helpers of AbstractCopyS3 (java/src/org/icrar/awsChiles02/
 * copyS3/AbstractCopyS3.java): an "s3://bucket/key" string split into its
 * bucket and its key.
 */
module CopyS3 {
  import opened Text

  /** What a Java String-returning call does: throws, returns null, or returns a string. */
  datatype Outcome = Threw(exception: string) | Null | Value(s: string)

  const Scheme := "s3://"

  /**
   * getBucketName: null unless the string starts with "s3://"; otherwise
   * substring(5, indexOf('/', 5)), which throws when no '/' follows the
   * scheme (the end index is then -1).
   */
  function GetBucketName(s3String: string): (r: Outcome)
    ensures !StartsWith(s3String, Scheme) <==> r == Null
    ensures r.Value? ==> '/' !in r.s
  {
    if StartsWith(s3String, Scheme) then
      var index := IndexOfFrom(s3String, '/', 5);
      if index < 5 then Threw("StringIndexOutOfBoundsException")
      else Value(s3String[5..index])
    else Null
  }

  /**
   * getKeyName: null unless the string starts with "s3://"; otherwise
   * substring(indexOf('/', 5) + 1), which is the whole string when no '/'
   * follows the scheme.
   */
  function GetKeyName(s3String: string): (r: Outcome)
    ensures !StartsWith(s3String, Scheme) <==> r == Null
    ensures r.Value? ==> EndsWith(s3String, r.s)
  {
    if StartsWith(s3String, Scheme) then
      var index := IndexOfFrom(s3String, '/', 5);
      Value(s3String[index + 1..])
    else Null
  }

  /** The URL a bucket and a key make. */
  function S3Url(bucket: string, key: string): string
  {
    Scheme + bucket + "/" + key
  }

  /**
   * When a '/' follows the scheme, the bucket and the key are both found,
   * and putting them back together gives the input.
   */
  lemma SplitThenJoin(s3String: string)
    requires StartsWith(s3String, Scheme) && '/' in s3String[5..]
    ensures GetBucketName(s3String).Value? && GetKeyName(s3String).Value?
    ensures S3Url(GetBucketName(s3String).s, GetKeyName(s3String).s) == s3String
  {
    var index := IndexOfFrom(s3String, '/', 5);
    var j :| 0 <= j < |s3String[5..]| && s3String[5..][j] == '/';
    assert s3String[5 + j] == '/';
    assert index != -1;
    assert s3String == s3String[..5] + s3String[5..index] + [s3String[index]] + s3String[index + 1..];
  }

  /**
   * A bucket without '/' and any key, joined into a URL, split back into
   * that bucket and that key: the key may itself hold '/'.
   */
  lemma JoinThenSplit(bucket: string, key: string)
    requires '/' !in bucket
    ensures GetBucketName(S3Url(bucket, key)) == Value(bucket)
    ensures GetKeyName(S3Url(bucket, key)) == Value(key)
  {
    var url := S3Url(bucket, key);
    assert url[..5] == Scheme;
    assert url[5 + |bucket|] == '/';
    assert forall i :: 5 <= i < 5 + |bucket| ==> url[i] == bucket[i - 5];
    var index := IndexOfFrom(url, '/', 5);
    assert index == 5 + |bucket|;
    assert url[5..index] == bucket;
    assert url[index + 1..] == key;
  }

  /**
   * With no '/' after the scheme, getBucketName throws while getKeyName
   * returns the whole input, scheme included.
   */
  lemma NoSlashAfterScheme(s3String: string)
    requires StartsWith(s3String, Scheme) && '/' !in s3String[5..]
    ensures GetBucketName(s3String) == Threw("StringIndexOutOfBoundsException")
    ensures GetKeyName(s3String) == Value(s3String)
  {
    assert forall i :: 5 <= i < |s3String| ==> s3String[i] == s3String[5..][i - 5];
  }
}
