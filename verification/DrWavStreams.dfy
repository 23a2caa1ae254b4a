/** dr_wav's in-memory streams: the reader over a block of memory and the growing writer. */
module DrWavStreams {
  import opened Bytes

  datatype SeekOrigin = FromStart | FromCurrent

  /** What one read delivers: fewer bytes than asked for only at the end of the data. */
  function ReadAt(data: seq<byte>, pos: nat, n: nat): (s: seq<byte>)
    requires pos <= |data|
    ensures pos + |s| <= |data| && |s| <= n
  {
    data[pos..Min(pos + n, |data|)]
  }

  lemma ReadsPiece(data: seq<byte>, pos: nat, piece: seq<byte>)
    requires At(data, pos, piece)
    ensures ReadAt(data, pos, |piece|) == piece
  {
  }

  class MemoryReadStream {
    const data: seq<byte>
    var currentReadPos: nat

    ghost predicate Valid()
      reads this
    {
      currentReadPos <= |data|
    }

    constructor (data: seq<byte>)
      ensures this.data == data && currentReadPos == 0 && Valid()
    {
      this.data := data;
      currentReadPos := 0;
    }

    method Read(bytesToRead: nat) returns (s: seq<byte>)
      requires Valid()
      modifies this
      ensures Valid()
      ensures s == ReadAt(data, old(currentReadPos), bytesToRead)
      ensures currentReadPos == old(currentReadPos) + |s|
    {
      var bytesRemaining := |data| - currentReadPos;
      var n := bytesToRead;
      if n > bytesRemaining {
        n := bytesRemaining;
      }
      s := data[currentReadPos..currentReadPos + n];
      currentReadPos := currentReadPos + n;
    }

    method Seek(offset: int, origin: SeekOrigin) returns (ok: bool)
      requires Valid()
      requires origin == FromStart ==> 0 <= offset
      modifies this
      ensures Valid()
      ensures var target := if origin == FromStart then offset else old(currentReadPos) + offset;
        ok == (0 <= target <= |data|) && currentReadPos == if ok then target else old(currentReadPos)
    {
      if origin == FromCurrent {
        if offset > 0 {
          if currentReadPos + offset > |data| {
            return false;
          }
        } else {
          if currentReadPos < -offset {
            return false;
          }
        }
        currentReadPos := currentReadPos + offset;
      } else {
        if offset <= |data| {
          currentReadPos := offset;
        } else {
          return false;
        }
      }
      return true;
    }

    /** Seeks forward in steps that fit an `int`. */
    method SeekForward(offset: nat) returns (ok: bool)
      requires Valid()
      modifies this
      ensures Valid()
      ensures ok == (old(currentReadPos) + offset <= |data|)
      ensures ok ==> currentReadPos == old(currentReadPos) + offset
    {
      var bytesRemainingToSeek := offset;
      while bytesRemainingToSeek > 0
        invariant Valid()
        invariant 0 <= bytesRemainingToSeek <= offset
        invariant currentReadPos + bytesRemainingToSeek == old(currentReadPos) + offset
      {
        if bytesRemainingToSeek > INT_MAX {
          ok := Seek(INT_MAX, FromCurrent);
          if !ok { return; }
          bytesRemainingToSeek := bytesRemainingToSeek - INT_MAX;
        } else {
          ok := Seek(bytesRemainingToSeek, FromCurrent);
          if !ok { return; }
          bytesRemainingToSeek := 0;
        }
      }
      ok := true;
    }

    /** Seeks to an absolute position in steps that fit an `int`. */
    method SeekFromStart(target: nat) returns (ok: bool)
      requires Valid()
      modifies this
      ensures Valid()
      ensures ok == (target <= |data|)
      ensures ok ==> currentReadPos == target
    {
      if target <= INT_MAX {
        ok := Seek(target, FromStart);
        return;
      }
      ok := Seek(INT_MAX, FromStart);
      if !ok { return; }
      var offset := target - INT_MAX;
      while offset > INT_MAX
        invariant Valid()
        invariant 0 <= offset && currentReadPos + offset == target
      {
        ok := Seek(INT_MAX, FromCurrent);
        if !ok { return; }
        offset := offset - INT_MAX;
      }
      ok := Seek(offset, FromCurrent);
    }
  }

  /** The data after writing `s` at `pos`: overwritten in place, extended at the end. */
  function Overwrite(data: seq<byte>, pos: nat, s: seq<byte>): (r: seq<byte>)
    requires pos <= |data|
    ensures |r| == if pos + |s| <= |data| then |data| else pos + |s|
  {
    data[..pos] + s + if pos + |s| <= |data| then data[pos + |s|..] else []
  }

  lemma OverwriteNothing(data: seq<byte>, pos: nat)
    requires pos <= |data|
    ensures Overwrite(data, pos, []) == data
  {
  }

  lemma OverwriteTwice(data: seq<byte>, pos: nat, a: seq<byte>, b: seq<byte>)
    requires pos <= |data|
    ensures Overwrite(Overwrite(data, pos, a), pos + |a|, b) == Overwrite(data, pos, a + b)
  {
    var d := Overwrite(data, pos, a);
    assert d[..pos + |a|] == data[..pos] + a;
    assert data[..pos] + a + b == data[..pos] + (a + b);
    if pos + |a| + |b| <= |data| {
      assert d[pos + |a| + |b|..] == data[pos + |a| + |b|..];
    }
  }

  /** Writing at the end appends. */
  lemma OverwriteEnd(data: seq<byte>, s: seq<byte>)
    ensures Overwrite(data, |data|, s) == data + s
  {
  }

  /** Patching a field of the same length leaves everything around it alone. */
  lemma OverwriteField(pre: seq<byte>, field: seq<byte>, post: seq<byte>, s: seq<byte>)
    requires |s| == |field|
    ensures Overwrite(pre + field + post, |pre|, s) == pre + s + post
  {
    var data := pre + field + post;
    assert data[..|pre|] == pre && data[|pre| + |s|..] == post;
  }

  class MemoryWriteStream {
    var data: seq<byte>  // the first dataSize bytes of the block
    var dataCapacity: nat
    var currentWritePos: nat

    ghost predicate Valid()
      reads this
    {
      currentWritePos <= |data| <= dataCapacity
    }

    constructor ()
      ensures Valid() && data == [] && currentWritePos == 0
    {
      data := [];
      dataCapacity := 0;
      currentWritePos := 0;
    }

    /** Doubles the block, or grows it to exactly what the write needs. */
    method Write(s: seq<byte>) returns (bytesWritten: nat)
      requires Valid()
      modifies this
      ensures Valid()
      ensures bytesWritten == |s|
      ensures data == Overwrite(old(data), old(currentWritePos), s)
      ensures currentWritePos == old(currentWritePos) + |s|
      ensures old(currentWritePos) + |s| <= old(dataCapacity) ==> dataCapacity == old(dataCapacity)
      ensures dataCapacity <= if old(dataCapacity) == 0 then 256 + |s| else 2 * old(dataCapacity) + |s|
    {
      var bytesRemaining := dataCapacity - currentWritePos;
      if bytesRemaining < |s| {
        var newDataCapacity := if dataCapacity == 0 then 256 else dataCapacity * 2;
        if newDataCapacity - currentWritePos < |s| {
          newDataCapacity := currentWritePos + |s|;
        }
        dataCapacity := newDataCapacity;
      }
      data := Overwrite(data, currentWritePos, s);
      currentWritePos := currentWritePos + |s|;
      bytesWritten := |s|;
    }

    /** Seeking outside the written data stops at its ends. */
    method Seek(offset: int, origin: SeekOrigin)
      requires Valid()
      requires origin == FromStart ==> 0 <= offset
      modifies this`currentWritePos
      ensures Valid()
      ensures var target := if origin == FromStart then offset else old(currentWritePos) + offset;
        currentWritePos == if target < 0 then 0 else Min(target, |data|)
    {
      var step: int := offset;
      if origin == FromCurrent {
        if offset > 0 {
          if currentWritePos + offset > |data| {
            step := |data| - currentWritePos;
          }
        } else {
          if currentWritePos < -offset {
            step := 0 - currentWritePos;
          }
        }
        currentWritePos := currentWritePos + step;
      } else {
        if offset <= |data| {
          currentWritePos := offset;
        } else {
          currentWritePos := |data|;
        }
      }
    }
  }
}
