/** Reading and seeking in uncompressed data: a byte counter, a stream position and a frame cursor that
    are meant to agree. */
module DrWavReader {
  import opened Bytes
  import opened DrWavStreams

  /** Frames `from` up to `to` of the data, as bytes. */
  function FrameBytes(data: seq<byte>, dataPos: nat, bytesPerFrame: nat, from: nat, to: nat): seq<byte>
    requires from <= to && dataPos + to * bytesPerFrame <= |data|
  {
    MulMonotone(bytesPerFrame, from, to);
    data[dataPos + from * bytesPerFrame..dataPos + to * bytesPerFrame]
  }

  /** The whole frames in some bytes. */
  function WholeFrames(bytes: nat, bytesPerFrame: nat): (frames: nat)
    requires bytesPerFrame > 0
    ensures frames * bytesPerFrame <= bytes < frames * bytesPerFrame + bytesPerFrame
  {
    QuotientBounds(bytes, bytesPerFrame);
    bytes / bytesPerFrame
  }

  lemma QuotientBounds(a: nat, k: nat)
    requires k > 0
    ensures 0 <= a / k && (a / k) * k <= a < (a / k) * k + k
  {
    assert a == k * (a / k) + a % k;
    if a / k < 0 {
      MulMonotone(k, a / k, -1);
    }
  }

  lemma WholeFramesExact(frames: nat, k: nat)
    requires k > 0
    ensures WholeFrames(frames * k, k) == frames
  {
    DivUnique(frames * k, k, frames, 0);
  }

  /** What skipping `offset` bytes adds to the frame cursor: the skip is made in steps that fit an `int`,
      and each step counts its own whole frames. */
  function CursorStep(offset: nat, bytesPerFrame: nat): nat
    requires bytesPerFrame > 0
  {
    if offset > INT_MAX then WholeFrames(INT_MAX, bytesPerFrame) + CursorStep(offset - INT_MAX, bytesPerFrame)
    else WholeFrames(offset, bytesPerFrame)
  }

  /** What skipping whole frames adds to it. */
  function FramesCounted(frames: nat, bytesPerFrame: nat): nat
    requires bytesPerFrame > 0
  {
    CursorStep(frames * bytesPerFrame, bytesPerFrame)
  }

  predicate Divides(k: nat, n: nat)
    requires k > 0
  {
    WholeFrames(n, k) * k == n
  }

  /** Skipped whole frames are all counted exactly when one step does, or when the largest step holds
      whole frames. */
  lemma CursorExact(frames: nat, k: nat)
    requires k > 0
    ensures FramesCounted(frames, k) <= frames
    ensures FramesCounted(frames, k) == frames <==> frames * k <= INT_MAX || Divides(k, INT_MAX)
  {
    hide CursorStep, WholeFrames;
    var c := CursorStep(frames * k, k);
    CursorAtMost(frames * k, k);
    Ordered(frames, c, k);
    if frames * k <= INT_MAX || Divides(k, INT_MAX) {
      CursorWhole(frames, k);
    }
  }

  /** A skip over 2 GiB of four-byte frames counts one too few. */
  lemma CursorFallsBehind()
    ensures FramesCounted(0x2000_0000, 4) == 0x1FFF_FFFF
  {
    assert INT_MAX / 4 == 0x1FFF_FFFF;
  }

  lemma {:induction false} CursorAtMost(offset: nat, k: nat)
    requires k > 0
    ensures CursorStep(offset, k) * k <= offset
    ensures offset > INT_MAX && !Divides(k, INT_MAX) ==> CursorStep(offset, k) * k < offset
    decreases offset
  {
    hide WholeFrames;
    if offset > INT_MAX {
      CursorAtMost(offset - INT_MAX, k);
      Spread(WholeFrames(INT_MAX, k), CursorStep(offset - INT_MAX, k), k);
    }
  }

  lemma {:induction false} CursorWhole(frames: nat, k: nat)
    requires k > 0 && (frames * k <= INT_MAX || Divides(k, INT_MAX))
    ensures CursorStep(frames * k, k) == frames
    decreases frames
  {
    hide WholeFrames;
    if frames * k > INT_MAX {
      var q := WholeFrames(INT_MAX, k);
      Ordered(q, frames, k);
      assert q > 0;
      CursorWhole(frames - q, k);
    } else {
      WholeFramesExact(frames, k);
    }
  }

  lemma Spread(a: nat, b: nat, k: nat)
    ensures (a + b) * k == a * k + b * k
  {
  }

  class PcmReader {
    const stream: MemoryReadStream
    const dataChunkDataPos: nat
    const totalPCMFrameCount: nat
    const bytesPerFrame: nat
    var readCursorInPCMFrames: nat
    var bytesRemaining: nat
    ghost var position: nat  // the frame the stream really stands at

    ghost predicate Valid()
      reads this, stream
    {
      stream.Valid() && bytesPerFrame > 0 && readCursorInPCMFrames <= position <= totalPCMFrameCount
      && dataChunkDataPos + totalPCMFrameCount * bytesPerFrame <= |stream.data|
      && stream.currentReadPos == dataChunkDataPos + position * bytesPerFrame
      && position * bytesPerFrame + bytesRemaining == totalPCMFrameCount * bytesPerFrame
    }

    /** The reader as opening leaves it, wherever the stream is. */
    constructor (stream: MemoryReadStream, dataPos: nat, totalFrames: nat, bytesPerFrame: nat)
      requires bytesPerFrame > 0 && stream.Valid()
      ensures stream.currentReadPos == dataPos && dataPos + totalFrames * bytesPerFrame <= |stream.data| ==> Valid()
      ensures position == 0 && readCursorInPCMFrames == 0 && bytesRemaining == totalFrames * bytesPerFrame
      ensures this.stream == stream && dataChunkDataPos == dataPos
      ensures totalPCMFrameCount == totalFrames && this.bytesPerFrame == bytesPerFrame
    {
      this.stream := stream;
      dataChunkDataPos := dataPos;
      totalPCMFrameCount := totalFrames;
      this.bytesPerFrame := bytesPerFrame;
      readCursorInPCMFrames, position := 0, 0;
      bytesRemaining := totalFrames * bytesPerFrame;
    }

    /** drwav_read_raw, into a buffer or, without one, past the bytes. */
    method ReadRaw(bytesToRead: nat, discard: bool) returns (bytes: seq<byte>, bytesRead: nat)
      requires stream.Valid() && bytesPerFrame > 0
      modifies this`readCursorInPCMFrames, this`bytesRemaining, stream
      ensures stream.Valid()
      ensures var found := ReadAt(stream.data, old(stream.currentReadPos), Min(bytesToRead, old(bytesRemaining)));
        bytesRead == |found| && bytes == if discard then [] else found
      ensures stream.currentReadPos == old(stream.currentReadPos) + bytesRead
      ensures bytesRemaining == old(bytesRemaining) - bytesRead
      ensures readCursorInPCMFrames == old(readCursorInPCMFrames) + WholeFrames(bytesRead, bytesPerFrame)
    {
      bytes, bytesRead := [], 0;
      if bytesToRead == 0 { return; }
      var n := if bytesToRead > bytesRemaining then bytesRemaining else bytesToRead;
      if n == 0 { return; }
      if discard {
        bytesRead := Discard(n);
      } else {
        bytes := stream.Read(n);
        bytesRead := |bytes|;
      }
      readCursorInPCMFrames := readCursorInPCMFrames + WholeFrames(bytesRead, bytesPerFrame);
      bytesRemaining := bytesRemaining - bytesRead;
    }

    /** Passes over bytes: seeks as long as seeking works, and reads in blocks what is left. */
    method Discard(n: nat) returns (bytesRead: nat)
      requires stream.Valid()
      modifies stream
      ensures stream.Valid() && bytesRead == |ReadAt(stream.data, old(stream.currentReadPos), n)|
      ensures stream.currentReadPos == old(stream.currentReadPos) + bytesRead
    {
      bytesRead := 0;
      while bytesRead < n
        invariant stream.Valid() && bytesRead <= n
        invariant stream.currentReadPos == old(stream.currentReadPos) + bytesRead
      {
        var bytesToSeek := if n - bytesRead > INT_MAX then INT_MAX else n - bytesRead;
        var ok := stream.Seek(bytesToSeek, FromCurrent);
        if !ok { break; }
        bytesRead := bytesRead + bytesToSeek;
      }
      while bytesRead < n
        invariant stream.Valid() && bytesRead <= n
        invariant stream.currentReadPos == old(stream.currentReadPos) + bytesRead
        decreases n - bytesRead
      {
        var bytesToSeek := if n - bytesRead > 4096 then 4096 else n - bytesRead;
        var buffer := stream.Read(bytesToSeek);
        bytesRead := bytesRead + |buffer|;
        if |buffer| < bytesToSeek { break; }
      }
    }

    /** drwav_read_pcm_frames_le: the next `framesToRead` frames, or what is left of them, even when the
        cursor has fallen behind; or, if the stream is not at a frame at all, what it holds where it is. */
    method ReadPcmFrames(framesToRead: nat, discard: bool) returns (bytes: seq<byte>, framesRead: nat)
      requires stream.Valid() && bytesPerFrame > 0 && readCursorInPCMFrames <= totalPCMFrameCount
      modifies this, stream
      ensures stream.Valid() && (!discard ==> framesRead == WholeFrames(|bytes|, bytesPerFrame))
      ensures At(stream.data, old(stream.currentReadPos), bytes)
      ensures old(Valid()) ==>
        Valid()
        && position == Min(old(position) + framesToRead, totalPCMFrameCount)
        && framesRead == position - old(position) == readCursorInPCMFrames - old(readCursorInPCMFrames)
        && bytes == if discard then []
                    else FrameBytes(stream.data, dataChunkDataPos, bytesPerFrame, old(position), position)
    {
      bytes, framesRead := [], 0;
      ghost var goal := Min(position + framesToRead, totalPCMFrameCount);
      WholeFramesExact(0, bytesPerFrame);
      if framesToRead == 0 { return; }
      var n := framesToRead;
      if n > totalPCMFrameCount - readCursorInPCMFrames {
        n := totalPCMFrameCount - readCursorInPCMFrames;
      }
      var bytesToRead := n * bytesPerFrame;
      if Valid() {
        ClampedFrames(position, n, totalPCMFrameCount, bytesPerFrame, bytesRemaining);
      }
      var bytesRead;
      bytes, bytesRead := ReadRaw(bytesToRead, discard);
      framesRead := WholeFrames(bytesRead, bytesPerFrame);
      position := goal;
    }

    /** drwav_seek_to_first_pcm_frame. */
    method SeekToFirstPcmFrame()
      requires stream.Valid() && dataChunkDataPos <= |stream.data|
      modifies this, stream
      ensures stream.Valid() && stream.currentReadPos == dataChunkDataPos
      ensures readCursorInPCMFrames == 0 && position == 0
      ensures bytesRemaining == totalPCMFrameCount * bytesPerFrame
    {
      var _ := stream.Seek(dataChunkDataPos, FromStart);
      readCursorInPCMFrames, position := 0, 0;
      bytesRemaining := totalPCMFrameCount * bytesPerFrame;
    }

    /** Moves forward in steps that fit an `int`. */
    method SkipBytes(distance: nat)
      requires stream.Valid() && bytesPerFrame > 0
      requires stream.currentReadPos + distance <= |stream.data| && distance <= bytesRemaining
      modifies this`readCursorInPCMFrames, this`bytesRemaining, stream
      ensures stream.Valid() && stream.currentReadPos == old(stream.currentReadPos) + distance
      ensures bytesRemaining == old(bytesRemaining) - distance
      ensures readCursorInPCMFrames == old(readCursorInPCMFrames) + CursorStep(distance, bytesPerFrame)
    {
      hide WholeFrames;
      var offset := distance;
      while offset > 0
        invariant 0 <= offset <= distance && stream.Valid()
        invariant stream.currentReadPos + offset == old(stream.currentReadPos) + distance
        invariant bytesRemaining - offset == old(bytesRemaining) - distance
        invariant readCursorInPCMFrames + CursorStep(offset, bytesPerFrame)
               == old(readCursorInPCMFrames) + CursorStep(distance, bytesPerFrame)
      {
        var offset32 := if offset > INT_MAX then INT_MAX else offset;
        NothingLeft(bytesPerFrame);
        var ok := stream.Seek(offset32, FromCurrent);
        if !ok { return; }
        readCursorInPCMFrames := readCursorInPCMFrames + WholeFrames(offset32, bytesPerFrame);
        bytesRemaining := bytesRemaining - offset32;
        offset := offset - offset32;
      }
      NothingLeft(bytesPerFrame);
    }

    /** drwav_seek_to_pcm_frame for an uncompressed format: the stream ends up exactly at the frame. What
        the cursor says is the sum of the steps. */
    method SeekToPcmFrame(targetFrameIndex: nat) returns (ok: bool)
      requires Valid() && dataChunkDataPos <= INT_MAX
      modifies this, stream
      ensures Valid() && ok
      ensures position == Min(targetFrameIndex, totalPCMFrameCount)
      ensures totalPCMFrameCount > 0 ==>
        if old(position) < position then
          readCursorInPCMFrames == old(readCursorInPCMFrames) + FramesCounted(position - old(position), bytesPerFrame)
        else readCursorInPCMFrames == FramesCounted(position, bytesPerFrame)
    {
      hide CursorStep;
      ok := true;
      if totalPCMFrameCount == 0 {
        return;
      }
      var target := if targetFrameIndex > totalPCMFrameCount then totalPCMFrameCount else targetFrameIndex;
      var totalSizeInBytes := totalPCMFrameCount * bytesPerFrame;
      var currentBytePos := totalSizeInBytes - bytesRemaining;
      var targetBytePos := target * bytesPerFrame;
      Ordered(position, target, bytesPerFrame);
      Ordered(target, totalPCMFrameCount, bytesPerFrame);
      if currentBytePos < targetBytePos {
        CursorExact(target - position, bytesPerFrame);
        SkipBytes(targetBytePos - currentBytePos);
      } else {
        CursorExact(target, bytesPerFrame);
        SeekToFirstPcmFrame();
        SkipBytes(targetBytePos);
      }
      position := target;
    }
  }

  lemma NothingLeft(k: nat)
    requires k > 0
    ensures CursorStep(0, k) == 0
  {
    WholeFramesExact(0, k);
  }

  lemma Ordered(a: nat, b: nat, k: nat)
    requires k > 0
    ensures a < b <==> a * k < b * k
    ensures b >= a ==> (b - a) * k == b * k - a * k
  {
    if a < b {
      MulMonotone(k, a + 1, b);
      assert k * (a + 1) == a * k + k;
    } else {
      MulMonotone(k, b, a);
    }
  }

  /** Asking for `n` frames, no fewer than are really left or than were asked for, reads up to the goal. */
  lemma ClampedFrames(position: nat, n: nat, total: nat, k: nat, bytesRemaining: nat)
    requires k > 0 && position <= total && position * k + bytesRemaining == total * k
    ensures var frames := Min(position + n, total) - position;
      Min(n * k, bytesRemaining) == frames * k && WholeFrames(frames * k, k) == frames
      && position * k + frames * k == (position + frames) * k <= total * k
  {
    var frames := Min(position + n, total) - position;
    Ordered(position, total, k);
    Ordered(n, total - position, k);
    Ordered(position + frames, total, k);
    WholeFramesExact(frames, k);
    assert (position + frames) * k == position * k + frames * k;
  }
}
