/** The IMA ADPCM decoder and its seek: a 16-slot sample cache, a per-block byte counter and a frame
    cursor, each method proved against the decoder's state as a value. */
module DrWavIma {
  import opened Bytes
  import opened DrWavStreams
  import opened DrWavImaSpec

  /** Where sample `k` of a frame stands while `left` frames are cached: the cache is used up towards
      its end. */
  function SlotOf(channels: int, left: nat, k: nat): (slot: nat)
    requires (channels == 1 || channels == 2) && 1 <= left <= 8 && k < channels
    ensures slot < 16
  {
    if channels == 1 then 16 - left else 16 - 2 * left + k
  }

  /** Frame `i` of the `count` cached ones. */
  function CachedFrame(channels: int, slots: seq<i16>, count: nat, i: nat): Frame
    requires (channels == 1 || channels == 2) && |slots| == 16 && i < count <= 8
  {
    seq(channels, k requires 0 <= k < channels => slots[SlotOf(channels, count - i, k)])
  }

  function Cached(channels: int, slots: seq<i16>, count: nat): (fs: seq<Frame>)
    requires (channels == 1 || channels == 2) && |slots| == 16 && count <= 8
    ensures |fs| == count
  {
    seq(count, i requires 0 <= i < count => CachedFrame(channels, slots, count, i))
  }

  /** Where sample `i` of channel `k` goes when a group is decoded. */
  function GroupSlot(channels: int, i: nat, k: nat): (slot: nat)
    requires (channels == 1 || channels == 2) && i < 8 && k < channels
    ensures slot < 16
  {
    SlotOf(channels, 8 - i, k)
  }

  /** What a full cache holds of channel `k`. */
  function Column(channels: int, slots: seq<i16>, k: nat): (c: seq<i16>)
    requires (channels == 1 || channels == 2) && |slots| == 16 && k < channels
    ensures |c| == 8
  {
    seq(8, i requires 0 <= i < 8 => slots[GroupSlot(channels, i, k)])
  }

  lemma ColumnStore(channels: int, slots: seq<i16>, i: nat, k: nat, x: i16)
    requires (channels == 1 || channels == 2) && |slots| == 16 && i < 8 && k < channels
    ensures Column(channels, slots[GroupSlot(channels, i, k) := x], k) == Column(channels, slots, k)[i := x]
    ensures channels == 2 ==> Column(2, slots[GroupSlot(2, i, k) := x], 1 - k) == Column(2, slots, 1 - k)
  {
  }

  /** A full cache, column by column. */
  lemma CachedColumns(w: Ima, cs: seq<Channel>, pos: nat, slots: seq<i16>)
    requires |cs| == w.channels && pos + 4 * w.channels <= |w.data| && |slots| == 16
    requires ColumnsDone(w, cs, pos, slots, w.channels)
    ensures Cached(w.channels, slots, 8) == GroupFrames(w, cs, pos)
  {
    hide Run;
    forall i | 0 <= i < 8 ensures CachedFrame(w.channels, slots, 8, i) == GroupFrame(w, cs, pos, i) {
      forall k | 0 <= k < w.channels
        ensures CachedFrame(w.channels, slots, 8, i)[k] == GroupFrame(w, cs, pos, i)[k]
      {
        assert Column(w.channels, slots, k)[i] == Samples(cs[k], w.data, pos + 4 * k, 8)[i];
      }
    }
  }

  lemma CachedTail(channels: int, slots: seq<i16>, count: nat)
    requires (channels == 1 || channels == 2) && |slots| == 16 && 0 < count <= 8
    ensures Cached(channels, slots, count)
         == [CachedFrame(channels, slots, count, 0)] + Cached(channels, slots, count - 1)
  {
    forall i | 0 < i < count
      ensures CachedFrame(channels, slots, count, i) == CachedFrame(channels, slots, count - 1, i - 1)
    {
    }
  }

  function ChannelsOf(channels: int, predictor: seq<i16>, stepIndex: seq<StepIndex>): (cs: seq<Channel>)
    requires 0 <= channels <= |predictor| && channels <= |stepIndex|
    ensures |cs| == channels
  {
    seq(channels, k requires 0 <= k < channels => Channel(predictor[k], stepIndex[k]))
  }

  class ImaDecoder {
    const w: Ima
    const stream: MemoryReadStream
    const predictor: array<i16>
    const stepIndex: array<StepIndex>
    const cachedFrames: array<i16>
    var readCursorInPCMFrames: nat
    var bytesRemainingInBlock: u32
    var cachedFrameCount: nat

    ghost predicate Valid()
      reads this, stream
    {
      stream.data == w.data && stream.Valid() && predictor.Length == 2 && stepIndex.Length == 2
      && cachedFrames.Length == 16 && predictor != cachedFrames && cachedFrameCount <= 8
      && readCursorInPCMFrames <= w.total
    }

    /** The state as a value: the cache as the frames still to come out of it. */
    ghost function Abs(): (s: Decoder)
      requires Valid()
      reads this, stream, predictor, stepIndex, cachedFrames
      ensures Good(w, s)
    {
      Decoder(stream.currentReadPos, readCursorInPCMFrames, bytesRemainingInBlock,
              ChannelsOf(w.channels, predictor[..], stepIndex[..]),
              Cached(w.channels, cachedFrames[..], cachedFrameCount))
    }

    /** The decoder as opening leaves it. */
    constructor (w: Ima, stream: MemoryReadStream)
      requires stream.data == w.data && stream.currentReadPos == w.dataPos
      ensures this.w == w && this.stream == stream && Valid() && Abs() == StartOf(w)
      ensures fresh(predictor) && fresh(stepIndex) && fresh(cachedFrames)
    {
      this.w := w;
      this.stream := stream;
      predictor := new i16[2](_ => 0);
      stepIndex := new StepIndex[2](_ => 0);
      cachedFrames := new i16[16](_ => 0);
      readCursorInPCMFrames, bytesRemainingInBlock, cachedFrameCount := 0, 0, 0;
    }

    /** A valid header gives each channel its predictor, its step index and its first sample. */
    method StoreHeader(header: seq<byte>, ghost pos: nat)
      requires Valid() && At(w.data, pos, header) && |header| == 4 * w.channels && ValidHeader(w, pos)
      requires header[2] <= 88 && (w.channels == 2 ==> header[6] <= 88)
      modifies this`cachedFrameCount, predictor, stepIndex, cachedFrames
      ensures Valid() && cachedFrameCount == 1
      ensures ChannelsOf(w.channels, predictor[..], stepIndex[..]) == HeaderChannels(w, pos)
      ensures Cached(w.channels, cachedFrames[..], 1) == [HeaderFrame(HeaderChannels(w, pos))]
    {
      hide ToI16, U16At, ValidHeader, Cached;
      HeaderWords(w, header, pos);
      predictor[0] := ToI16(U16At(header, 0));
      stepIndex[0] := header[2];
      if w.channels == 1 {
        cachedFrames[15] := predictor[0];
      } else {
        predictor[1] := ToI16(U16At(header, 4));
        stepIndex[1] := header[6];
        cachedFrames[14] := predictor[0];
        cachedFrames[15] := predictor[1];
      }
      cachedFrameCount := 1;
      HeaderCached(w, cachedFrames[..], HeaderChannels(w, pos));
    }

    /** The header of the next block. */
    method LoadBlock() returns (ok: bool)
      requires Valid() && cachedFrameCount == 0
      modifies this`bytesRemainingInBlock, this`cachedFrameCount, stream, predictor, stepIndex, cachedFrames
      ensures Valid()
      ensures var r := DrWavImaSpec.LoadBlock(w, old(Abs())); Abs() == r.s && ok == r.Ready?
    {
      hide HeaderChannels, HeaderFrame, ChannelsOf, Cached;
      ghost var pos := stream.currentReadPos;
      var header := stream.Read(4 * w.channels);
      if |header| != 4 * w.channels {
        assert Cached(w.channels, cachedFrames[..], 0) == [];
        return false;
      }
      assert forall i :: 0 <= i < |header| ==> header[i] == w.data[pos + i];
      bytesRemainingInBlock := ToU32(w.blockAlign - 4 * w.channels);
      if header[2] > 88 || (w.channels == 2 && header[6] > 88) {
        var _ := stream.Seek(w.blockAlign - 4 * w.channels, FromCurrent);
        bytesRemainingInBlock := 0;
        return false;
      }
      StoreHeader(header, pos);
      ok := true;
    }

    /** One nibble of channel `k`, decoded into a slot of the cache. */
    method DecodeNibble(k: nat, nibble: Nibble, slot: nat)
      requires Valid() && k < w.channels && slot < 16
      modifies predictor, stepIndex, cachedFrames
      ensures var c := Next(Channel(old(predictor[k]), old(stepIndex[k])), nibble);
        predictor[..] == old(predictor[..])[k := c.predictor]
        && stepIndex[..] == old(stepIndex[..])[k := c.stepIndex]
        && cachedFrames[..] == old(cachedFrames[..])[slot := c.predictor]
    {
      var step := STEP_TABLE[stepIndex[k]];
      var diff: int := step / 8;
      if nibble % 2 == 1 { diff := diff + step / 4; }
      if nibble / 2 % 2 == 1 { diff := diff + step / 2; }
      if nibble / 4 % 2 == 1 { diff := diff + step; }
      if nibble >= 8 { diff := -diff; }
      predictor[k] := Clamp(predictor[k] + diff, -0x8000, 0x7FFF);
      stepIndex[k] := Clamp(stepIndex[k] + INDEX_TABLE[nibble], 0, 88);
      cachedFrames[slot] := predictor[k];
    }

    /** Four bytes, eight samples, of channel `k`; the other channel keeps its own. */
    method DecodeChannel(k: nat, nibbles: seq<byte>, ghost pos: nat)
      requires Valid() && k < w.channels && At(w.data, pos, nibbles) && |nibbles| == 4
      modifies predictor, stepIndex, cachedFrames
      ensures var c := Channel(old(predictor[k]), old(stepIndex[k]));
        Channel(predictor[k], stepIndex[k]) == Run(c, w.data, pos, 8)
        && Column(w.channels, cachedFrames[..], k) == Samples(c, w.data, pos, 8)
      ensures predictor[1 - k] == old(predictor[1 - k]) && stepIndex[1 - k] == old(stepIndex[1 - k])
      ensures w.channels == 2 ==> Column(2, cachedFrames[..], 1 - k) == old(Column(2, cachedFrames[..], 1 - k))
    {
      hide Next, Column, GroupSlot, Samples;
      ghost var c := Channel(predictor[k], stepIndex[k]);
      for iByte := 0 to 4
        invariant Valid()
        invariant Channel(predictor[k], stepIndex[k]) == Run(c, w.data, pos, 2 * iByte)
        invariant predictor[1 - k] == old(predictor[1 - k]) && stepIndex[1 - k] == old(stepIndex[1 - k])
        invariant Column(w.channels, cachedFrames[..], k)[..2 * iByte] == Samples(c, w.data, pos, 2 * iByte)
        invariant w.channels == 2 ==> Column(2, cachedFrames[..], 1 - k) == old(Column(2, cachedFrames[..], 1 - k))
      {
        assert nibbles[iByte] == w.data[pos..pos + 4][iByte] == w.data[pos + iByte];
        DecodeSample(k, nibbles[iByte] % 16, c, pos, 2 * iByte);
        DecodeSample(k, nibbles[iByte] / 16, c, pos, 2 * iByte + 1);
      }
    }

    /** Sample `i` of a group of channel `k`. */
    method DecodeSample(k: nat, nibble: Nibble, ghost c: Channel, ghost pos: nat, i: nat)
      requires Valid() && k < w.channels && i < 8 && pos + 4 <= |w.data|
      requires nibble == NibbleAt(w.data, pos, i)
      requires Channel(predictor[k], stepIndex[k]) == Run(c, w.data, pos, i)
      requires Column(w.channels, cachedFrames[..], k)[..i] == Samples(c, w.data, pos, i)
      modifies predictor, stepIndex, cachedFrames
      ensures Channel(predictor[k], stepIndex[k]) == Run(c, w.data, pos, i + 1)
      ensures Column(w.channels, cachedFrames[..], k)[..i + 1] == Samples(c, w.data, pos, i + 1)
      ensures predictor[1 - k] == old(predictor[1 - k]) && stepIndex[1 - k] == old(stepIndex[1 - k])
      ensures w.channels == 2 ==> Column(2, cachedFrames[..], 1 - k) == old(Column(2, cachedFrames[..], 1 - k))
    {
      hide Next, Column, Samples, NibbleAt;
      DecodeNibble(k, nibble, GroupSlot(w.channels, i, k));
      ColumnStore(w.channels, old(cachedFrames[..]), i, k, predictor[k]);
      SamplesGrow(c, w.data, pos, i);
      assert old(Column(w.channels, cachedFrames[..], k))[i := predictor[k]][..i + 1]
          == old(Column(w.channels, cachedFrames[..], k))[..i] + [predictor[k]];
    }

    /** The first `m` channels of a group have been read and decoded. */
    ghost predicate GroupDone(s0: Decoder, m: nat)
      requires Valid() && Good(w, s0) && m <= w.channels && s0.pos + 4 * m <= |w.data|
      reads this, stream, predictor, stepIndex, cachedFrames
    {
      cachedFrameCount == 8 && readCursorInPCMFrames == s0.cursor && stream.currentReadPos == s0.pos + 4 * m
      && bytesRemainingInBlock == Left(s0.remaining, m)
      && ChannelsOf(w.channels, predictor[..], stepIndex[..]) == GroupChannels(w, s0.chans, s0.pos, m)
      && ColumnsDone(w, s0.chans, s0.pos, cachedFrames[..], m)
    }

    /** Four bytes of channel `k`, if they can be read. */
    method LoadChannel(k: nat, ghost s0: Decoder) returns (ok: bool)
      requires Valid() && Good(w, s0) && k < w.channels && s0.pos + 4 * k <= |w.data| && GroupDone(s0, k)
      modifies this`bytesRemainingInBlock, this`cachedFrameCount, stream, predictor, stepIndex, cachedFrames
      ensures Valid()
      ensures ok ==> s0.pos + 4 * (k + 1) <= |w.data| && GroupDone(s0, k + 1)
      ensures !ok ==> DrWavImaSpec.LoadGroup(w, s0) == Stuck(Abs())
    {
      hide Column, Samples, Run, DrWavImaSpec.LoadGroup, Left, GroupChannels, Cached;
      var nibbles := stream.Read(4);
      if |nibbles| != 4 {
        cachedFrameCount := 0;
        GroupStuck(w, s0, k);
        return false;
      }
      LeftNext(s0.remaining, k);
      bytesRemainingInBlock := ToU32(bytesRemainingInBlock as int - 4);
      ghost var before := ChannelsOf(w.channels, predictor[..], stepIndex[..]);
      GroupChannelsNext(w, s0.chans, s0.pos, k);
      DecodeChannel(k, nibbles, s0.pos + 4 * k);
      ghost var c := Run(s0.chans[k], w.data, s0.pos + 4 * k, 8);
      assert ChannelsOf(w.channels, predictor[..], stepIndex[..]) == before[k := c];
      ok := true;
    }

    lemma GroupStart(s0: Decoder)
      requires Valid() && Good(w, s0) && cachedFrameCount == 8 && readCursorInPCMFrames == s0.cursor
      requires stream.currentReadPos == s0.pos && bytesRemainingInBlock == s0.remaining
      requires ChannelsOf(w.channels, predictor[..], stepIndex[..]) == s0.chans
      ensures GroupDone(s0, 0)
    {
      hide Left, ChannelsOf, GroupChannels, ColumnsDone;
      GroupChannelsNone(w, s0.chans, s0.pos, cachedFrames[..]);
      LeftNext(s0.remaining, 0);
    }

    lemma GroupComplete(s0: Decoder)
      requires Valid() && Good(w, s0) && s0.pos + 4 * w.channels <= |w.data| && GroupDone(s0, w.channels)
      ensures DrWavImaSpec.LoadGroup(w, s0) == Ready(Abs())
    {
      hide Left, ChannelsOf, GroupChannels, ColumnsDone, DrWavImaSpec.LoadGroup, Cached, GroupFrames;
      CachedColumns(w, s0.chans, s0.pos, cachedFrames[..]);
      GroupReady(w, s0);
    }

    /** Four bytes of each channel in turn fill the whole cache. */
    method LoadGroup() returns (ok: bool)
      requires Valid() && cachedFrameCount == 0
      modifies this`bytesRemainingInBlock, this`cachedFrameCount, stream, predictor, stepIndex, cachedFrames
      ensures Valid()
      ensures var r := DrWavImaSpec.LoadGroup(w, old(Abs())); Abs() == r.s && ok == r.Ready?
    {
      hide GroupDone, ChannelsOf, Good, DrWavImaSpec.LoadGroup, Cached;
      ghost var s0 := Abs();
      assert cachedFrameCount == 0 && s0.cache == [] by { GroupChannelsNone(w, s0.chans, s0.pos, cachedFrames[..]); }
      cachedFrameCount := 8;
      GroupStart(s0);
      for k := 0 to w.channels
        invariant Valid() && s0.pos + 4 * k <= |w.data| && GroupDone(s0, k)
      {
        ok := LoadChannel(k, s0);
        if !ok {
          return;
        }
      }
      GroupComplete(s0);
      ok := true;
    }

    /** The oldest cached frame. */
    method Deliver() returns (frame: Frame)
      requires Valid() && cachedFrameCount > 0 && readCursorInPCMFrames < w.total
      modifies this`readCursorInPCMFrames, this`cachedFrameCount
      ensures Valid() && Abs() == Served(old(Abs())) && frame == old(Abs()).cache[0]
    {
      CachedTail(w.channels, cachedFrames[..], cachedFrameCount);
      frame := CachedFrame(w.channels, cachedFrames[..], cachedFrameCount, 0);
      readCursorInPCMFrames := readCursorInPCMFrames + 1;
      cachedFrameCount := cachedFrameCount - 1;
    }

    /** Output anything that is cached. */
    method ServeCached(n: nat, before: seq<Frame>, ghost outcome: Taken) returns (frames: seq<Frame>, left: nat)
      requires Valid() && n > 0 && readCursorInPCMFrames < w.total && Towards(w, Abs(), n, before, outcome)
      modifies this`readCursorInPCMFrames, this`cachedFrameCount
      ensures Valid() && Towards(w, Abs(), left, frames, outcome)
      ensures left == 0 || cachedFrameCount == 0 || readCursorInPCMFrames == w.total
      ensures if old(cachedFrameCount) == 0 then cachedFrameCount == 0 && left == n && frames == before
                                                 && readCursorInPCMFrames == old(readCursorInPCMFrames)
              else readCursorInPCMFrames > old(readCursorInPCMFrames)
    {
      hide Towards, Take, Cached, Good;
      frames, left := before, n;
      while left > 0 && cachedFrameCount > 0 && readCursorInPCMFrames < w.total
        invariant Valid() && Towards(w, Abs(), left, frames, outcome)
        invariant if cachedFrameCount == old(cachedFrameCount) then
                    left == n && frames == before && readCursorInPCMFrames == old(readCursorInPCMFrames)
                  else cachedFrameCount < old(cachedFrameCount) && readCursorInPCMFrames > old(readCursorInPCMFrames)
      {
        TowardsServed(w, Abs(), left, frames, outcome);
        var frame := Deliver();
        frames, left := frames + [frame], left - 1;
      }
    }

    /** Load whatever comes next: a block header or a group. */
    method RefillCache(ghost left: nat, ghost frames: seq<Frame>, ghost outcome: Taken) returns (ok: bool)
      requires Valid() && cachedFrameCount == 0 && left > 0 && Towards(w, Abs(), left, frames, outcome)
      requires readCursorInPCMFrames < w.total || bytesRemainingInBlock != 0
      modifies this`bytesRemainingInBlock, this`cachedFrameCount, stream, predictor, stepIndex, cachedFrames
      ensures Valid()
      ensures ok ==> cachedFrameCount > 0 && Towards(w, Abs(), left, frames, outcome)
      ensures readCursorInPCMFrames == old(readCursorInPCMFrames)
      ensures !ok ==> Taken(frames, Abs()) == outcome
    {
      hide Towards, DrWavImaSpec.LoadBlock, DrWavImaSpec.LoadGroup, Good;
      TowardsRefilled(w, Abs(), left, frames, outcome);
      if bytesRemainingInBlock == 0 {
        ok := LoadBlock();
      } else {
        ok := LoadGroup();
      }
    }

    /** drwav_read_pcm_frames_s16__ima. */
    method Read(framesToRead: nat) returns (frames: seq<Frame>)
      requires Valid() && framesToRead > 0
      modifies this, stream, predictor, stepIndex, cachedFrames
      ensures Valid()
      ensures Taken(frames, Abs()) == ReadFrames(w, old(Abs()), framesToRead)
    {
      hide Take, Refill, DrWavImaSpec.LoadBlock, DrWavImaSpec.LoadGroup, Good, Towards, Cached, ChannelsOf, Overrun;
      ghost var outcome := ReadFrames(w, Abs(), framesToRead);
      frames := [];
      var left := framesToRead;
      if readCursorInPCMFrames < w.total {
        TowardsStart(w, Abs(), left);
      } else {
        return;
      }
      while readCursorInPCMFrames < w.total
        invariant Valid() && left > 0 && Towards(w, Abs(), left, frames, outcome)
        invariant readCursorInPCMFrames < w.total || cachedFrameCount > 0 || bytesRemainingInBlock == 0
        decreases w.total - readCursorInPCMFrames, cachedFrameCount == 0
      {
        if cachedFrameCount == 0 && bytesRemainingInBlock == 0 {
          var ok := RefillCache(left, frames, outcome);
          if !ok { return; }
        }
        frames, left := ServeCached(left, frames, outcome);
        if left == 0 { break; }
        if cachedFrameCount == 0 && bytesRemainingInBlock != 0 {
          var ok := RefillCache(left, frames, outcome);
          if !ok { return; }
        }
      }
      TowardsDone(w, Abs(), left, frames, outcome);
    }

    /** drwav_seek_to_first_pcm_frame: the stream back at the data, the decoder's memory zeroed. */
    method SeekToFirstPcmFrame()
      requires Valid()
      modifies this, stream, predictor, stepIndex, cachedFrames
      ensures Valid() && Abs() == StartOf(w)
    {
      var _ := stream.Seek(w.dataPos, FromStart);
      forall k | 0 <= k < 2 { predictor[k] := 0; }
      forall k | 0 <= k < 2 { stepIndex[k] := 0; }
      forall k | 0 <= k < 16 { cachedFrames[k] := 0; }
      bytesRemainingInBlock, cachedFrameCount, readCursorInPCMFrames := 0, 0, 0;
    }

    /** Takes `n` frames and throws them away, at most 2048 samples at a time. */
    method Skip(n: nat) returns (ok: bool)
      requires Valid() && readCursorInPCMFrames + n <= w.total
      modifies this, stream, predictor, stepIndex, cachedFrames
      ensures Valid()
      ensures var r := Take(w, old(Abs()), n); ok == (|r.frames| == n) && Abs() == r.s
    {
      hide Take, Refill, Cached, ChannelsOf, Good, ReadFrames;
      ghost var outcome := Take(w, Abs(), n);
      var offsetInFrames := n;
      while offsetInFrames > 0
        invariant Valid() && 0 <= offsetInFrames <= n && readCursorInPCMFrames + offsetInFrames <= w.total
        invariant SkipLeaves(w, Abs(), n, offsetInFrames, outcome)
      {
        var framesToRead := if offsetInFrames > 2048 / w.channels then 2048 / w.channels else offsetInFrames;
        ghost var s := Abs();
        var frames := Read(framesToRead);
        SkipMore(w, s, n, offsetInFrames, framesToRead, outcome);
        if |frames| != framesToRead {
          return false;
        }
        offsetInFrames := offsetInFrames - framesToRead;
      }
      SkipDone(w, Abs(), n, outcome);
      ok := true;
    }

    /** drwav_seek_to_pcm_frame for a compressed format. */
    method SeekToPcmFrame(targetFrameIndex: nat) returns (ok: bool)
      requires Valid() && w.dataPos <= INT_MAX
      modifies this, stream, predictor, stepIndex, cachedFrames
      ensures Valid()
      ensures Sought(ok, Abs()) == SeekTo(w, old(Abs()), targetFrameIndex)
    {
      hide Take, Cached, ChannelsOf, Good;
      if w.total == 0 {
        return true;
      }
      var target := if targetFrameIndex > w.total then w.total else targetFrameIndex;
      if target < readCursorInPCMFrames {
        SeekToFirstPcmFrame();
      }
      ok := Skip(target - readCursorInPCMFrames);
    }
  }

  /** The first `m` channels have their column of samples. */
  ghost predicate ColumnsDone(w: Ima, cs: seq<Channel>, pos: nat, slots: seq<i16>, m: nat)
    requires |cs| == w.channels && m <= w.channels && pos + 4 * m <= |w.data| && |slots| == 16
  {
    forall k :: 0 <= k < m ==> Column(w.channels, slots, k) == Samples(cs[k], w.data, pos + 4 * k, 8)
  }

  lemma HeaderWords(w: Ima, header: seq<byte>, pos: nat)
    requires At(w.data, pos, header) && |header| == 4 * w.channels
    ensures U16At(header, 0) == U16At(w.data, pos) && header[2] == w.data[pos + 2]
    ensures w.channels == 2 ==> U16At(header, 4) == U16At(w.data, pos + 4) && header[6] == w.data[pos + 6]
  {
    assert forall i :: 0 <= i < |header| ==> header[i] == w.data[pos..pos + |header|][i] == w.data[pos + i];
  }

  lemma HeaderCached(w: Ima, slots: seq<i16>, cs: seq<Channel>)
    requires |cs| == w.channels && |slots| == 16
    requires forall k :: 0 <= k < w.channels ==> slots[SlotOf(w.channels, 1, k)] == cs[k].predictor
    ensures Cached(w.channels, slots, 1) == [HeaderFrame(cs)]
  {
    assert CachedFrame(w.channels, slots, 1, 0) == HeaderFrame(cs);
  }

  lemma GroupChannelsNext(w: Ima, cs: seq<Channel>, pos: nat, k: nat)
    requires |cs| == w.channels && k < w.channels && pos + 4 * (k + 1) <= |w.data|
    ensures GroupChannels(w, cs, pos, k)[k] == cs[k]
    ensures GroupChannels(w, cs, pos, k + 1) == GroupChannels(w, cs, pos, k)[k := Run(cs[k], w.data, pos + 4 * k, 8)]
  {
    hide Run;
  }

  lemma GroupStuck(w: Ima, s: Decoder, m: nat)
    requires Good(w, s) && m < w.channels && s.pos + 4 * m <= |w.data| < s.pos + 4 * m + 4
    ensures DrWavImaSpec.LoadGroup(w, s)
         == Stuck(s.(pos := |w.data|, remaining := Left(s.remaining, m),
                     chans := GroupChannels(w, s.chans, s.pos, m), cache := []))
  {
    hide GroupChannels, GroupFrames;
  }

  lemma GroupReady(w: Ima, s: Decoder)
    requires Good(w, s) && s.pos + 4 * w.channels <= |w.data|
    ensures DrWavImaSpec.LoadGroup(w, s)
         == Ready(s.(pos := s.pos + 4 * w.channels, remaining := Left(s.remaining, w.channels),
                     chans := GroupChannels(w, s.chans, s.pos, w.channels),
                     cache := GroupFrames(w, s.chans, s.pos)))
  {
    hide GroupChannels, GroupFrames;
  }

  lemma GroupChannelsNone(w: Ima, cs: seq<Channel>, pos: nat, slots: seq<i16>)
    requires |cs| == w.channels && pos <= |w.data| && |slots| == 16
    ensures GroupChannels(w, cs, pos, 0) == cs && ColumnsDone(w, cs, pos, slots, 0)
    ensures Cached(w.channels, slots, 0) == []
  {
  }

  lemma SamplesGrow(c: Channel, data: seq<byte>, pos: nat, n: nat)
    requires pos + (n + 2) / 2 <= |data|
    ensures Samples(c, data, pos, n + 1) == Samples(c, data, pos, n) + [Run(c, data, pos, n + 1).predictor]
  {
    hide Run;
  }

  // ---------- on the way to an outcome ----------

  /** Taking `left` more frames from `s` completes `frames` to the outcome. */
  ghost predicate Towards(w: Ima, s: Decoder, left: nat, frames: seq<Frame>, outcome: Taken)
    requires Good(w, s)
  {
    var r := Overrun(w, Take(w, s, left), left);
    outcome == Taken(frames + r.frames, r.s)
  }

  lemma TowardsStart(w: Ima, s: Decoder, n: nat)
    requires Good(w, s) && s.cursor < w.total
    ensures Towards(w, s, n, [], ReadFrames(w, s, n))
  {
    hide Take;
    assert [] + Take(w, s, n).frames == Take(w, s, n).frames;
  }

  lemma TowardsServed(w: Ima, s: Decoder, left: nat, frames: seq<Frame>, outcome: Taken)
    requires Good(w, s) && Towards(w, s, left, frames, outcome)
    requires left > 0 && s.cache != [] && s.cursor < w.total
    ensures Good(w, Served(s)) && Towards(w, Served(s), left - 1, frames + [s.cache[0]], outcome)
  {
    hide Take, LoadGroup;
    TakeOne(w, s, left);
    var r := Take(w, Served(s), left - 1);
    assert frames + ([s.cache[0]] + r.frames) == frames + [s.cache[0]] + r.frames;
  }

  lemma TowardsRefilled(w: Ima, s: Decoder, left: nat, frames: seq<Frame>, outcome: Taken)
    requires Good(w, s) && Towards(w, s, left, frames, outcome) && left > 0 && s.cache == []
    requires s.cursor < w.total || s.remaining != 0
    ensures var r := Refill(w, s);
      if r.Ready? then Towards(w, r.s, left, frames, outcome) else Taken(frames, r.s) == outcome
  {
    hide Take, LoadBlock, LoadGroup;
    var t := Refill(w, s).s;
    if s.cursor < w.total {
      TakeRefill(w, s, left);
    } else {
      TakeNone(w, s, left);
      TakeNone(w, t, left);
    }
  }

  lemma TowardsDone(w: Ima, s: Decoder, left: nat, frames: seq<Frame>, outcome: Taken)
    requires Good(w, s) && Towards(w, s, left, frames, outcome)
    requires left == 0 || (s.cursor >= w.total && (s.cache != [] || s.remaining == 0))
    ensures Taken(frames, s) == outcome
  {
    hide Take, LoadGroup;
    TakeNone(w, s, left);
    assert frames + [] == frames;
  }

  /** With `offset` frames still to skip from `s`, the outcome is the rest of the way. */
  ghost predicate SkipLeaves(w: Ima, s: Decoder, n: nat, offset: nat, outcome: Taken)
    requires Good(w, s)
  {
    var r := Take(w, s, offset);
    |outcome.frames| + offset == n + |r.frames| && r.s == outcome.s
  }

  lemma SkipMore(w: Ima, s: Decoder, n: nat, offset: nat, k: nat, outcome: Taken)
    requires Good(w, s) && 0 < k <= offset <= n && s.cursor + offset <= w.total
    requires SkipLeaves(w, s, n, offset, outcome)
    ensures var r := ReadFrames(w, s, k);
      if |r.frames| == k then SkipLeaves(w, r.s, n, offset - k, outcome)
      else |outcome.frames| < n && r.s == outcome.s
  {
    hide Take, LoadGroup;
    TakeSplit(w, s, k, offset - k);
  }

  lemma SkipDone(w: Ima, s: Decoder, n: nat, outcome: Taken)
    requires Good(w, s) && SkipLeaves(w, s, n, 0, outcome)
    ensures |outcome.frames| == n && s == outcome.s
  {
  }
}
