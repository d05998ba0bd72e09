/**
 * The hexadecimal rendering of a digest shared by GetMD5 of
 * java/src/org/icrar/awsChiles02/copyS3 and getMD5 of copyToS3: every byte
 * of the digest becomes Integer.toString((b & 0xff) + 0x100, 16).substring(1),
 * and the checksum files their main methods write.
 */
module HexDigest {
  /** Java's signed byte. */
  newtype int8 = x: int | -128 <= x < 128

  /** b & 0xff: the byte's unsigned value. */
  function Unsigned(b: int8): (u: nat)
    ensures u < 256 && (b >= 0 ==> u == b as int) && (b < 0 ==> u == b as int + 256)
  {
    if b < 0 then b as int + 256 else b as int
  }

  /** The byte whose unsigned value is u. */
  function Signed(u: nat): (b: int8)
    requires u < 256
    ensures Unsigned(b) == u
  {
    if u >= 128 then (u - 256) as int8 else u as int8
  }

  predicate IsLowerHex(c: char) {
    '0' <= c <= '9' || 'a' <= c <= 'f'
  }

  /** Character.forDigit(d, 16): lower-case letters above 9. */
  function HexDigit(d: nat): (c: char)
    requires d < 16
    ensures IsLowerHex(c)
  {
    "0123456789abcdef"[d]
  }

  function HexValue(c: char): (d: nat)
    requires IsLowerHex(c)
    ensures d < 16
  {
    if c <= '9' then c as int - '0' as int else c as int - 'a' as int + 10
  }

  lemma HexValueOfDigit(d: nat)
    requires d < 16
    ensures HexValue(HexDigit(d)) == d
  {
  }

  /** Integer.toString(n, 16) for a non-negative n: no leading zeros. */
  function ToBase16(n: nat): (s: string)
    ensures |s| >= 1
    decreases n
  {
    if n < 16 then [HexDigit(n)] else ToBase16(n / 16) + [HexDigit(n % 16)]
  }

  /** Between 0x100 and 0x1ff, the rendering is a 1 followed by the two digits of n - 0x100. */
  lemma ToBase16ThreeDigits(n: nat)
    requires 256 <= n < 512
    ensures ToBase16(n)[1..] == [HexDigit((n - 256) / 16), HexDigit((n - 256) % 16)]
  {
    var u := n - 256;
    assert n / 16 == u / 16 + 16 && n % 16 == u % 16;
    assert 16 <= n / 16 < 32 && n / 16 % 16 == u / 16;
    assert ToBase16(n / 16) == ToBase16(1) + [HexDigit(u / 16)];
    assert ToBase16(n) == [HexDigit(1), HexDigit(u / 16), HexDigit(u % 16)];
  }

  /**
   * Integer.toString((b & 0xff) + 0x100, 16).substring(1): the two
   * lower-case digits of the byte's unsigned value, high digit first, with
   * a leading zero below 16.
   */
  function ByteHex(b: int8): (r: string)
    ensures r == [HexDigit(Unsigned(b) / 16), HexDigit(Unsigned(b) % 16)]
  {
    var n := Unsigned(b) + 0x100;
    ToBase16ThreeDigits(n);
    ToBase16(n)[1..]
  }

  /** -1 renders as "ff" and 10 as "0a". */
  lemma ByteHexExamples()
    ensures ByteHex(-1) == "ff" && ByteHex(10) == "0a"
  {
  }

  /** The renderings of the bytes, in order. */
  function HexOf(bs: seq<int8>): (r: string)
    ensures |r| == 2 * |bs|
  {
    if bs == [] then [] else HexOf(bs[..|bs| - 1]) + ByteHex(bs[|bs| - 1])
  }

  /** Byte i occupies characters 2i and 2i + 1, and every character is a lower-case hex digit. */
  lemma {:induction false} HexOfAt(bs: seq<int8>)
    ensures forall i :: 0 <= i < |bs| ==>
      HexOf(bs)[2 * i] == HexDigit(Unsigned(bs[i]) / 16) && HexOf(bs)[2 * i + 1] == HexDigit(Unsigned(bs[i]) % 16)
    ensures forall j :: 0 <= j < |HexOf(bs)| ==> IsLowerHex(HexOf(bs)[j])
  {
    if bs != [] {
      var init := bs[..|bs| - 1];
      HexOfAt(init);
      var h := HexOf(bs);
      assert h == HexOf(init) + ByteHex(bs[|bs| - 1]);
      forall i | 0 <= i < |bs|
        ensures h[2 * i] == HexDigit(Unsigned(bs[i]) / 16) && h[2 * i + 1] == HexDigit(Unsigned(bs[i]) % 16)
      {
        if i < |init| {
          assert bs[i] == init[i];
        }
      }
      forall j | 0 <= j < |h|
        ensures IsLowerHex(h[j])
      {
        var i := j / 2;
        assert j == 2 * i || j == 2 * i + 1;
      }
    }
  }

  /** The digit that encodes half a byte, read back. */
  function DecodeByte(hi: char, lo: char): int8
    requires IsLowerHex(hi) && IsLowerHex(lo)
  {
    Signed(16 * HexValue(hi) + HexValue(lo))
  }

  /** Reads a hex string back two characters at a time. */
  function DecodeHex(s: string): (r: seq<int8>)
    requires |s| % 2 == 0 && forall j :: 0 <= j < |s| ==> IsLowerHex(s[j])
    ensures |r| == |s| / 2
  {
    seq(|s| / 2, i requires 0 <= i < |s| / 2 => DecodeByte(s[2 * i], s[2 * i + 1]))
  }

  /** The rendering is fixed-width, so decoding it gives back the bytes. */
  lemma DecodeHexOf(bs: seq<int8>)
    ensures |HexOf(bs)| % 2 == 0 && forall j :: 0 <= j < |HexOf(bs)| ==> IsLowerHex(HexOf(bs)[j])
    ensures DecodeHex(HexOf(bs)) == bs
  {
    HexOfAt(bs);
    var h := HexOf(bs);
    var d := DecodeHex(h);
    forall i | 0 <= i < |bs|
      ensures d[i] == bs[i]
    {
      var u := Unsigned(bs[i]);
      HexValueOfDigit(u / 16);
      HexValueOfDigit(u % 16);
      assert d[i] == Signed(16 * (u / 16) + u % 16);
    }
  }

  /** Different digests never render alike. */
  lemma HexOfInjective(a: seq<int8>, b: seq<int8>)
    requires HexOf(a) == HexOf(b)
    ensures a == b
  {
    DecodeHexOf(a);
    DecodeHexOf(b);
  }

  /** The checksum a digest function gives a file's content, as the hex string both programs print. */
  function Checksum(hash: seq<int8> -> seq<int8>, content: seq<int8>): (r: string)
    ensures |r| == 2 * |hash(content)|
  {
    HexOf(hash(content))
  }

  /** One lower-case hex digit as a byte of its character code. */
  function HexByte(c: char): (b: int8)
    requires IsLowerHex(c)
    ensures b as int == c as int
  {
    assert c as int <= 'f' as int;
    c as int as int8
  }

  /** md5.getBytes() of a string of lower-case hex digits: one byte per character. */
  function HexBytes(s: string): (r: seq<int8>)
    requires forall j :: 0 <= j < |s| ==> IsLowerHex(s[j])
    ensures |r| == |s| && forall j :: 0 <= j < |s| ==> r[j] as int == s[j] as int
  {
    seq(|s|, j requires 0 <= j < |s| => HexByte(s[j]))
  }

  /** What a path names: a regular file with its content, or something else (a directory). */
  datatype Entry = RegularFile(content: seq<int8>) | Other

  /** file.isFile() && file.exists() */
  predicate IsRegular(files: map<string, Entry>, name: string) {
    name in files && files[name].RegularFile?
  }

  /** The bytes a checksum file holds for a file's content. */
  function ChecksumBytes(hash: seq<int8> -> seq<int8>, content: seq<int8>): (r: seq<int8>)
    ensures |r| == 2 * |hash(content)|
  {
    DecodeHexOf(hash(content));
    HexBytes(Checksum(hash, content))
  }

  /** Files.write(path, ...) throws IOException when path names something other than a regular file. */
  predicate WriteBlocked(files: map<string, Entry>, path: string) {
    path in files && files[path].Other?
  }

  /** What main leaves behind: the files, and whether an IOException ended it. */
  datatype Run = Run(files: map<string, Entry>, failed: bool)

  /**
   * main's loop over the arguments, in order: each argument naming a
   * regular file gets "<name>.md5" written with its checksum, any other
   * argument is skipped, and a write that throws ends main with the files
   * as they were before it.
   */
  function WriteChecksums(hash: seq<int8> -> seq<int8>, files: map<string, Entry>, args: seq<string>): Run
  {
    if args == [] then Run(files, false)
    else
      var prev := WriteChecksums(hash, files, args[..|args| - 1]);
      var name := args[|args| - 1];
      if prev.failed || !IsRegular(prev.files, name) then prev
      else if WriteBlocked(prev.files, name + ".md5") then Run(prev.files, true)
      else Run(prev.files[name + ".md5" := RegularFile(ChecksumBytes(hash, prev.files[name].content))], false)
  }

  /** Once a write has thrown, the later arguments change nothing. */
  lemma {:induction false} FailureStops(hash: seq<int8> -> seq<int8>, files: map<string, Entry>, args: seq<string>, i: nat)
    requires i <= |args| && WriteChecksums(hash, files, args[..i]).failed
    ensures WriteChecksums(hash, files, args) == WriteChecksums(hash, files, args[..i])
    decreases |args|
  {
    if i < |args| {
      var init := args[..|args| - 1];
      assert init[..i] == args[..i];
      FailureStops(hash, files, init, i);
    } else {
      assert args[..i] == args;
    }
  }

  /**
   * The i-th pass of main's loop throws: main was still running, the i-th
   * argument names a regular file, and "<name>.md5" names something else.
   */
  predicate ThrowsAt(hash: seq<int8> -> seq<int8>, files: map<string, Entry>, args: seq<string>, i: nat)
    requires i < |args|
  {
    var before := WriteChecksums(hash, files, args[..i]);
    !before.failed && IsRegular(before.files, args[i]) && WriteBlocked(before.files, args[i] + ".md5")
  }

  /** main fails exactly when some pass of its loop throws. */
  lemma {:induction false} FailsExactly(hash: seq<int8> -> seq<int8>, files: map<string, Entry>, args: seq<string>)
    ensures WriteChecksums(hash, files, args).failed <==> exists i :: 0 <= i < |args| && ThrowsAt(hash, files, args, i)
    decreases |args|
  {
    if args != [] {
      var n := |args| - 1;
      var init := args[..n];
      FailsExactly(hash, files, init);
      assert args[..n] == init;
      forall i | 0 <= i < n
        ensures ThrowsAt(hash, files, args, i) <==> ThrowsAt(hash, files, init, i)
      {
        assert init[..i] == args[..i];
        assert init[i] == args[i];
      }
      if WriteChecksums(hash, files, args).failed && !WriteChecksums(hash, files, init).failed {
        assert ThrowsAt(hash, files, args, n);
      }
      if ThrowsAt(hash, files, args, n) {
        assert !WriteChecksums(hash, files, init).failed;
      }
    }
  }

  /**
   * The i-th pass of main's loop wrote `path`: the i-th argument named a
   * regular file then, `path` is that name with ".md5" appended, and it was
   * written with that file's checksum.
   */
  predicate WrittenAt(hash: seq<int8> -> seq<int8>, files: map<string, Entry>, args: seq<string>, i: nat, path: string)
    requires i < |args|
  {
    var before := WriteChecksums(hash, files, args[..i]).files;
    var after := WriteChecksums(hash, files, args[..i + 1]).files;
    && IsRegular(before, args[i]) && path == args[i] + ".md5"
    && path in after && after[path] == RegularFile(ChecksumBytes(hash, before[args[i]].content))
  }

  /** Every path main creates or changes was written by some pass for an argument naming a regular file. */
  lemma {:induction false} OnlyRegularFilesGetChecksums(hash: seq<int8> -> seq<int8>, files: map<string, Entry>, args: seq<string>, path: string)
    requires path in WriteChecksums(hash, files, args).files
    requires path !in files || WriteChecksums(hash, files, args).files[path] != files[path]
    ensures exists i :: 0 <= i < |args| && WrittenAt(hash, files, args, i, path)
  {
    var n := |args|;
    assert n > 0;
    var init := args[..n - 1];
    var prev := WriteChecksums(hash, files, init);
    var name := args[n - 1];
    assert args[..n - 1] == init && args[..n] == args;
    var cur := WriteChecksums(hash, files, args);
    var writes := !prev.failed && IsRegular(prev.files, name) && !WriteBlocked(prev.files, name + ".md5");
    assert cur.files == if writes then prev.files[name + ".md5" := RegularFile(ChecksumBytes(hash, prev.files[name].content))] else prev.files;
    if writes && path == name + ".md5" {
      assert WrittenAt(hash, files, args, n - 1, path);
    } else {
      assert path in prev.files && prev.files[path] == cur.files[path];
      OnlyRegularFilesGetChecksums(hash, files, init, path);
      var i :| 0 <= i < |init| && WrittenAt(hash, files, init, i, path);
      assert init[..i] == args[..i] && init[..i + 1] == args[..i + 1] && init[i] == args[i];
      assert WrittenAt(hash, files, args, i, path);
    }
  }
}
