/**
 * FileChunkIO of python/src/helpers/file_chunk_io.py: a read-only view of
 * the bytes [offset, offset + bytes) of a file, positioned relative to
 * the chunk's start, over an io.FileIO positioned in the whole file.
 */
module FileChunk {
  import opened Wrappers
  import opened Text

  newtype uint8 = x: int | 0 <= x < 256

  const SeekSet := 0
  const SeekCur := 1
  const SeekEnd := 2

  /**
   * io.FileIO.read(m) at position pos of a file: up to m bytes from pos,
   * fewer at the end of the file, none past it; a negative m reads to the
   * end of the file.
   */
  function FileRead(file: seq<uint8>, pos: nat, m: int): (data: seq<uint8>)
    ensures pos <= |file| ==> pos + |data| <= |file| && data == file[pos..pos + |data|]
    ensures pos >= |file| ==> data == []
    ensures m >= 0 ==> |data| <= m
    ensures m >= 0 && pos + m <= |file| ==> |data| == m
    ensures m < 0 && pos <= |file| ==> |data| == |file| - pos
  {
    if pos >= |file| then []
    else if m < 0 || pos + m > |file| then file[pos..]
    else file[pos..pos + m]
  }

  /** Python's min for two ints. */
  function Min(a: int, b: int): (r: int)
    ensures r <= a && r <= b && (r == a || r == b)
  {
    if a <= b then a else b
  }

  /**
   * The modes starting with 'r' that io.FileIO accepts: after the 'r' only
   * 'b' and at most one '+'; any other letter, a second of r/w/a or a
   * second '+' makes it raise ValueError.
   */
  predicate FileIoReadMode(mode: string)
  {
    && StartsWith(mode, "r")
    && (forall i :: 1 <= i < |mode| ==> mode[i] == 'b' || mode[i] == '+')
    && (forall i, j :: 1 <= i < j < |mode| && mode[i] == '+' ==> mode[j] != '+')
  }

  /** Which of the modes a caller would write io.FileIO accepts. */
  lemma FileIoReadModes()
    ensures FileIoReadMode("r") && FileIoReadMode("rb") && FileIoReadMode("r+") && FileIoReadMode("rb+") && FileIoReadMode("r+b")
    ensures !FileIoReadMode("rt") && !FileIoReadMode("rU") && !FileIoReadMode("rw") && !FileIoReadMode("r++")
  {
    assert "rt"[1] == 't' && "rU"[1] == 'U' && "rw"[1] == 'w';
    assert "r++"[1] == '+' && "r++"[2] == '+';
  }

  class FileChunkIO {
    /** The content of the real file. */
    const file: seq<uint8>
    /** self.offset and self.bytes. */
    const offset: int
    const bytes: int
    /** The position of the underlying io.FileIO in the real file. */
    var pos: nat

    constructor Init(file: seq<uint8>, offset: int, bytes: int, pos: nat)
      ensures this.file == file && this.offset == offset && this.bytes == bytes && this.pos == pos
    {
      this.file := file;
      this.offset := offset;
      this.bytes := bytes;
      this.pos := pos;
    }

    /**
     * __init__ on a file with content `file`: a mode not starting with 'r'
     * raises ValueError, and so does io.FileIO's own check of the mode; a
     * missing byte_size means the rest of the file after offset; the final
     * seek(0) moves the real file to offset, which io.FileIO refuses with
     * IOError when offset is negative.
     */
    static method Open(file: seq<uint8>, mode: string, offset: int, byteSize: Option<int>)
      returns (r: Result<FileChunkIO, string>)
      ensures !StartsWith(mode, "r") ==> r == Err("ValueError")
      ensures StartsWith(mode, "r") && !FileIoReadMode(mode) ==> r == Err("ValueError")
      ensures FileIoReadMode(mode) && offset < 0 ==> r == Err("IOError")
      ensures FileIoReadMode(mode) && offset >= 0 ==> r.Ok?
      ensures r.Ok? ==> fresh(r.value) && r.value.file == file && r.value.offset == offset
      ensures r.Ok? ==> r.value.bytes == (if byteSize.Some? then byteSize.value else |file| - offset)
      ensures r.Ok? ==> r.value.Tell() == 0
    {
      if !StartsWith(mode, "r") {
        return Err("ValueError");
      }
      var bytes := if byteSize.None? then |file| - offset else byteSize.value;
      if !FileIoReadMode(mode) {
        return Err("ValueError");
      }
      var chunk := new FileChunkIO.Init(file, offset, bytes, 0);
      var error := chunk.Seek(0, SeekSet);
      if error.Some? {
        return Err(error.value);
      }
      r := Ok(chunk);
    }

    /** tell(): the real file's position, relative to the chunk's start. */
    function Tell(): (t: int)
      reads this
      ensures offset + t == pos
    {
      pos - offset
    }

    /**
     * seek(k, whence): SEEK_SET moves to chunk position k, SEEK_CUR by k,
     * SEEK_END to k past the chunk's end; any other whence does nothing.
     * A move before the start of the real file raises IOError and leaves
     * the position as it was.
     */
    method Seek(k: int, whence: int) returns (error: Option<string>)
      modifies this
      ensures var target := if whence == SeekSet then k else if whence == SeekCur then old(Tell()) + k else bytes + k;
        if whence !in {SeekSet, SeekCur, SeekEnd} then pos == old(pos) && error.None?
        else if offset + target < 0 then pos == old(pos) && error == Some("IOError")
        else Tell() == target && error.None?
      decreases if whence == SeekSet then 0 else 1
    {
      error := None;
      if whence == SeekSet {
        if offset + k < 0 {
          error := Some("IOError");
        } else {
          pos := offset + k;
        }
      } else if whence == SeekCur {
        error := Seek(Tell() + k, SeekSet);
      } else if whence == SeekEnd {
        error := Seek(bytes + k, SeekSet);
      }
    }

    /**
     * read(n): for n >= 0, at most min(n, bytes - tell()) bytes, read from
     * the real file; for a negative n, readall(). Past the chunk's end that
     * minimum is negative and the real file reads to its own end.
     */
    method Read(n: int) returns (r: Result<seq<uint8>, string>)
      modifies this
      ensures n >= 0 ==> r == Ok(FileRead(file, old(pos), Min(n, bytes - old(Tell()))))
      ensures n < 0 && old(Tell()) <= bytes ==> r == Ok(FileRead(file, old(pos), bytes - old(Tell())))
      ensures n < 0 && old(Tell()) > bytes ==> r == Err("RuntimeError")
      ensures r.Ok? ==> pos == old(pos) + |r.value|
      ensures r.Err? ==> pos == old(pos)
      decreases if n >= 0 then 0 else 2
    {
      if n >= 0 {
        var maxN := bytes - Tell();
        var m := Min(n, maxN);
        var data := FileRead(file, pos, m);
        pos := pos + |data|;
        r := Ok(data);
      } else {
        r := ReadAll();
      }
    }

    /**
     * readall(): read(bytes - tell()). Past the chunk's end that size is
     * negative, read hands it back to readall, and the two recurse until
     * Python 2 raises RuntimeError.
     */
    method ReadAll() returns (r: Result<seq<uint8>, string>)
      modifies this
      ensures old(Tell()) <= bytes ==> r == Ok(FileRead(file, old(pos), bytes - old(Tell())))
      ensures old(Tell()) > bytes ==> r == Err("RuntimeError")
      ensures r.Ok? ==> pos == old(pos) + |r.value|
      ensures r.Err? ==> pos == old(pos)
      decreases 1
    {
      var size := bytes - Tell();
      if size < 0 {
        return Err("RuntimeError");
      }
      r := Read(size);
    }

    /**
     * readinto(b): reads len(b) bytes, writes them to b[:n] and returns n.
     * Only past the chunk's end can the data outrun b; the slice assignment
     * then fails, after the read has moved the position, and b is left as
     * it was.
     */
    method ReadInto(b: array<uint8>) returns (r: Result<nat, string>)
      modifies this, b
      ensures var data := FileRead(file, old(pos), Min(b.Length, bytes - old(Tell())));
        && pos == old(pos) + |data|
        && if |data| <= b.Length then
          r == Ok(|data|) && b[..|data|] == data && b[|data|..] == old(b[|data|..])
        else r == Err("ValueError") && b[..] == old(b[..])
    {
      var data := Read(b.Length);
      var n := |data.value|;
      if n > b.Length {
        return Err("ValueError");
      }
      forall i | 0 <= i < n {
        b[i] := data.value[i];
      }
      r := Ok(n);
    }
  }

  /** Inside the chunk, read(n) returns at most n bytes and never carries the position past the chunk's end. */
  lemma ReadStaysInChunk(file: seq<uint8>, pos: nat, offset: int, bytes: int, n: nat)
    requires 0 <= pos - offset <= bytes
    ensures var data := FileRead(file, pos, Min(n, bytes - (pos - offset)));
      |data| <= n && |data| <= bytes - (pos - offset) && pos + |data| - offset <= bytes
  {
  }

  /** Inside the chunk, readall() returns the rest of the chunk, cut short only by the end of the real file. */
  lemma ReadAllIsRestOfChunk(file: seq<uint8>, pos: nat, offset: int, bytes: int)
    requires 0 <= pos - offset <= bytes && pos <= |file|
    ensures var data := FileRead(file, pos, bytes - (pos - offset));
      && data == file[pos..Min(offset + bytes, |file|)]
  {
  }

  /**
   * Past the chunk's end, read(n) with n >= 0 asks the real file for
   * min(n, bytes - tell()) bytes, a negative size, and so returns the whole
   * rest of the real file: more than n bytes whenever more than n remain,
   * and every one of them after the chunk's last byte.
   */
  lemma ReadPastChunkEndReadsToEof(file: seq<uint8>, pos: nat, offset: int, bytes: int, n: int)
    requires pos - offset > bytes && pos <= |file| && n >= 0
    ensures var data := FileRead(file, pos, Min(n, bytes - (pos - offset)));
      && data == file[pos..]
      && (|file| - pos > n ==> |data| > n)
      && offset + bytes < pos
  {
  }

  /**
   * An instance of ReadPastChunkEndReadsToEof: read(1) returns the whole rest of the real file:
   * in a 10-byte file with a 4-byte chunk at offset 0, seek(6) then read(1)
   * yields 4 bytes, none of them in the chunk.
   */
  lemma ReadPastChunkEnd()
    ensures var file := seq(10, i => 0 as uint8);
      |FileRead(file, 6, Min(1, 4 - (6 - 0)))| == 4
  {
    ReadPastChunkEndReadsToEof(seq(10, i => 0 as uint8), 6, 0, 4, 1);
  }

  /** Reading n bytes, then n' more, reads what one read of n + n' would, when both stay inside the file. */
  lemma FileReadSplit(file: seq<uint8>, pos: nat, n: nat, n': nat)
    requires pos + n + n' <= |file|
    ensures FileRead(file, pos, n) + FileRead(file, pos + n, n') == FileRead(file, pos, n + n')
  {
    assert file[pos..pos + n] + file[pos + n..pos + n + n'] == file[pos..pos + n + n'];
  }
}
