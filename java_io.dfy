/**
 * The JDK classes the two MD5 programs drive, reduced to what the
 * programs rely on: a FileInputStream over a file's content, the
 * FileChannel sharing its position, a ByteBuffer wrapping an array, a
 * MessageDigest that accumulates what it is fed, and the file system
 * main reads and writes.
 */
module JavaIo {
  import opened HexDigest

  /** How many bytes a read into `room` free bytes returns with `avail` bytes left in the file: 0 for no room, -1 at end of file. */
  function ReadCount(avail: nat, room: nat): (r: int)
    ensures room == 0 ==> r == 0
    ensures room > 0 && avail == 0 ==> r == -1
    ensures room > 0 && avail > 0 ==> 0 < r <= room && r <= avail && (r == room || r == avail)
  {
    if room == 0 then 0
    else if avail == 0 then -1
    else if room <= avail then room
    else avail
  }

  class FileInputStream {
    const content: seq<int8>
    var pos: nat

    ghost predicate Valid()
      reads this
    {
      pos <= |content|
    }

    constructor(content: seq<int8>)
      ensures this.content == content && pos == 0 && Valid()
    {
      this.content := content;
      pos := 0;
    }

    /**
     * read(b): fills b from its start with the next bytes of the file,
     * returning how many, or -1 at the end of the file.
     */
    method Read(b: array<int8>) returns (count: int)
      requires Valid()
      modifies this, b
      ensures Valid()
      ensures count == ReadCount(|content| - old(pos), b.Length)
      ensures count <= 0 ==> pos == old(pos) && b[..] == old(b[..])
      ensures count > 0 ==> pos == old(pos) + count && b[..count] == content[old(pos)..pos] && b[count..] == old(b[count..])
    {
      count := ReadCount(|content| - pos, b.Length);
      if count > 0 {
        forall i | 0 <= i < count {
          b[i] := content[pos + i];
        }
        pos := pos + count;
      }
    }

    /** getChannel(): a channel reading from this stream's position. */
    method GetChannel() returns (ch: FileChannel)
      ensures fresh(ch) && ch.stream == this
    {
      ch := new FileChannel(this);
    }
  }

  /** ByteBuffer.wrap(array): the buffer's position, limit and capacity, with the limit always at the capacity. */
  class ByteBuffer {
    const data: array<int8>
    var position: nat

    ghost predicate Valid()
      reads this
    {
      position <= data.Length
    }

    constructor Wrap(data: array<int8>)
      ensures this.data == data && position == 0 && Valid()
    {
      this.data := data;
      position := 0;
    }

    /** clear(): back to position 0. */
    method Clear()
      modifies this
      ensures position == 0 && Valid()
    {
      position := 0;
    }
  }

  class FileChannel {
    const stream: FileInputStream

    constructor(stream: FileInputStream)
      ensures this.stream == stream
    {
      this.stream := stream;
    }

    /**
     * read(bb): fills bb from its position with the next bytes of the
     * file, moving both positions; -1 at the end of the file.
     */
    method Read(bb: ByteBuffer) returns (count: int)
      requires stream.Valid() && bb.Valid()
      modifies stream, bb, bb.data
      ensures stream.Valid() && bb.Valid()
      ensures count == ReadCount(|stream.content| - old(stream.pos), bb.data.Length - old(bb.position))
      ensures count <= 0 ==> stream.pos == old(stream.pos) && bb.position == old(bb.position) && bb.data[..] == old(bb.data[..])
      ensures count > 0 ==> stream.pos == old(stream.pos) + count && bb.position == old(bb.position) + count
      ensures count > 0 ==> bb.data[..old(bb.position)] == old(bb.data[..bb.position])
      ensures count > 0 ==> bb.data[old(bb.position)..bb.position] == stream.content[old(stream.pos)..stream.pos]
      ensures count > 0 ==> bb.data[bb.position..] == old(bb.data[..])[bb.position..]
    {
      var start := bb.position;
      count := ReadCount(|stream.content| - stream.pos, bb.data.Length - start);
      if count > 0 {
        forall j | start <= j < start + count {
          bb.data[j] := stream.content[stream.pos + (j - start)];
        }
        stream.pos := stream.pos + count;
        bb.position := start + count;
      }
    }
  }

  /** A MessageDigest: the bytes fed to it since it was created or last finished. */
  class MessageDigest {
    var fed: seq<int8>

    /** MessageDigest.getInstance("MD5"). */
    constructor GetInstance()
      ensures fed == []
    {
      fed := [];
    }

    /** update(b, off, len). */
    method Update(b: array<int8>, off: nat, len: nat)
      requires off + len <= b.Length
      modifies this
      ensures fed == old(fed) + b[off..off + len]
    {
      fed := fed + b[off..off + len];
    }

    /** digest(): the hash of everything fed, after which the digest starts over. */
    method Digest(hash: seq<int8> -> seq<int8>) returns (bytes: array<int8>)
      modifies this
      ensures fresh(bytes) && bytes[..] == hash(old(fed)) && fed == []
    {
      var h := hash(fed);
      bytes := new int8[|h|](i requires 0 <= i < |h| => h[i]);
      fed := [];
    }
  }

  /** The files main sees and writes, by path. */
  class FileSystem {
    var files: map<string, Entry>

    constructor(files: map<string, Entry>)
      ensures this.files == files
    {
      this.files := files;
    }

    /**
     * Files.write(path, bytes): creates or replaces the file, or throws
     * IOException, changing nothing, when path names something else.
     */
    method Write(path: string, bytes: seq<int8>) returns (thrown: bool)
      modifies this
      ensures thrown == WriteBlocked(old(files), path)
      ensures files == if thrown then old(files) else old(files)[path := RegularFile(bytes)]
    {
      thrown := WriteBlocked(files, path);
      if !thrown {
        files := files[path := RegularFile(bytes)];
      }
    }
  }
}
