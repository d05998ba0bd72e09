/**
 * GetMD5 of java/src/org/icrar/awsChiles02/copyS3/GetMD5.java: the MD5 of
 * each file named on the command line, read through a FileChannel in
 * 8 MiB chunks, written in hex to "<name>.md5". The digest algorithm is
 * the parameter `hash`.
 */
module GetMd5 {
  import opened HexDigest
  import opened JavaIo

  /** The size of the reused read buffer, new byte[8388608]. */
  const ChunkSize := 8388608

  /** digestDecimalToHex: the bytes rendered two hex digits each, in order. */
  method DigestDecimalToHex(bytes: array<int8>) returns (s: string)
    ensures s == HexOf(bytes[..])
    ensures |s| == 2 * bytes.Length
  {
    var sb := "";
    for i := 0 to bytes.Length
      invariant sb == HexOf(bytes[..i])
    {
      assert bytes[..i + 1][..i] == bytes[..i];
      sb := sb + ByteHex(bytes[i]);
    }
    assert bytes[..bytes.Length] == bytes[..];
    s := sb;
  }

  /**
   * getFileChecksum: reads the file through a channel into a wrapped
   * buffer until read returns -1, feeding each chunk to the digest and
   * clearing the buffer, then renders the digest. Every byte of the file
   * is fed exactly once, in order, so the result is the checksum of the
   * whole content.
   */
  method GetFileChecksum(hash: seq<int8> -> seq<int8>, file: seq<int8>) returns (md5: string)
    ensures md5 == Checksum(hash, file)
  {
    var f := new FileInputStream(file);
    var ch := f.GetChannel();
    var byteArray := new int8[ChunkSize];
    var bb := new ByteBuffer.Wrap(byteArray);
    var digest := new MessageDigest.GetInstance();
    while true
      invariant f.Valid() && bb.Valid() && ch.stream == f && bb.data == byteArray && bb.position == 0
      invariant digest.fed == file[..f.pos]
      decreases |file| - f.pos
    {
      var bytesCount := ch.Read(bb);
      if bytesCount == -1 {
        break;
      }
      digest.Update(byteArray, 0, bytesCount);
      assert file[..f.pos] == file[..f.pos - bytesCount] + byteArray[0..bytesCount];
      bb.Clear();
    }
    assert file[..f.pos] == file;
    var bytes := digest.Digest(hash);
    md5 := DigestDecimalToHex(bytes);
  }

  /**
   * main: for each argument naming a regular file, writes its checksum
   * to "<name>.md5"; other arguments are skipped.
   */
  method ChecksumArguments(hash: seq<int8> -> seq<int8>, fs: FileSystem, args: seq<string>) returns (thrown: bool)
    modifies fs
    ensures fs.files == WriteChecksums(hash, old(fs.files), args).files
    ensures thrown == WriteChecksums(hash, old(fs.files), args).failed
  {
    thrown := false;
    var i := 0;
    while i < |args| && !thrown
      invariant 0 <= i <= |args|
      invariant Run(fs.files, thrown) == WriteChecksums(hash, old(fs.files), args[..i])
    {
      var filename := args[i];
      assert args[..i + 1][..i] == args[..i];
      if IsRegular(fs.files, filename) {
        var md5 := GetFileChecksum(hash, fs.files[filename].content);
        DecodeHexOf(hash(fs.files[filename].content));
        thrown := fs.Write(filename + ".md5", HexBytes(md5));
      }
      i := i + 1;
    }
    if thrown {
      FailureStops(hash, old(fs.files), args, i);
    } else {
      assert args[..i] == args;
    }
  }
}
