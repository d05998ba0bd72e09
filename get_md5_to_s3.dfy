/**
 * GetMD5 of java/src/org/icrar/awsChiles02/copyToS3/getMD5.java: two ways
 * of computing a file's MD5, one through a FileChannel and one through the
 * FileInputStream itself, each rendering the digest in hex with its own
 * loop. That loop is the one of GetMd5.DigestDecimalToHex, written out
 * again in each method, and is modelled by calling it. The digest
 * algorithm is the parameter `hash`.
 */
module GetMd5ToS3 {
  import opened HexDigest
  import opened JavaIo
  import opened GetMd5

  /**
   * getFileChecksum02: reads through a channel into a wrapped buffer until
   * read returns -1, feeding each chunk and clearing the buffer, then
   * renders the digest two hex digits per byte.
   */
  method GetFileChecksum02(hash: seq<int8> -> seq<int8>, file: seq<int8>) returns (md5: string)
    ensures md5 == Checksum(hash, file)
  {
    var f := new FileInputStream(file);
    var ch := f.GetChannel();
    var byteArray := new int8[ChunkSize];
    var bb := new ByteBuffer.Wrap(byteArray);
    var digest := new MessageDigest.GetInstance();
    while true
      invariant f.Valid() && bb.Valid() && ch.stream == f && bb.data == byteArray && bb.position == 0
      invariant digest.fed == file[..f.pos]
      decreases |file| - f.pos
    {
      var bytesCount := ch.Read(bb);
      if bytesCount == -1 {
        break;
      }
      digest.Update(byteArray, 0, bytesCount);
      assert file[..f.pos] == file[..f.pos - bytesCount] + byteArray[0..bytesCount];
      bb.Clear();
    }
    assert file[..f.pos] == file;
    var bytes := digest.Digest(hash);
    md5 := DigestDecimalToHex(bytes);
  }

  /**
   * getFileChecksum01: reads the stream straight into the array until
   * read returns -1, feeding each chunk, then renders the digest two hex
   * digits per byte.
   */
  method GetFileChecksum01(hash: seq<int8> -> seq<int8>, file: seq<int8>) returns (md5: string)
    ensures md5 == Checksum(hash, file)
  {
    var fis := new FileInputStream(file);
    var byteArray := new int8[ChunkSize];
    var digest := new MessageDigest.GetInstance();
    while true
      invariant fis.Valid() && fis.content == file
      invariant digest.fed == file[..fis.pos]
      decreases |file| - fis.pos
    {
      var bytesCount := fis.Read(byteArray);
      if bytesCount == -1 {
        break;
      }
      digest.Update(byteArray, 0, bytesCount);
      assert file[..fis.pos] == file[..fis.pos - bytesCount] + byteArray[0..bytesCount];
    }
    assert file[..fis.pos] == file;
    var bytes := digest.Digest(hash);
    md5 := DigestDecimalToHex(bytes);
  }

  /**
   * main: for each argument naming a regular file, computes the checksum
   * both ways and writes the second to "<name>.md5". The two agree, so
   * the files written are the ones GetMd5.ChecksumArguments writes.
   */
  method ChecksumArguments(hash: seq<int8> -> seq<int8>, fs: FileSystem, args: seq<string>) returns (thrown: bool)
    modifies fs
    ensures fs.files == WriteChecksums(hash, old(fs.files), args).files
    ensures thrown == WriteChecksums(hash, old(fs.files), args).failed
  {
    thrown := false;
    var i := 0;
    while i < |args| && !thrown
      invariant 0 <= i <= |args|
      invariant Run(fs.files, thrown) == WriteChecksums(hash, old(fs.files), args[..i])
    {
      var filename := args[i];
      assert args[..i + 1][..i] == args[..i];
      if IsRegular(fs.files, filename) {
        var content := fs.files[filename].content;
        var md5 := GetFileChecksum01(hash, content);
        md5 := GetFileChecksum02(hash, content);
        DecodeHexOf(hash(content));
        thrown := fs.Write(filename + ".md5", HexBytes(md5));
      }
      i := i + 1;
    }
    if thrown {
      FailureStops(hash, old(fs.files), args, i);
    } else {
      assert args[..i] == args;
    }
  }
}
