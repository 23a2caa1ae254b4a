/** The frame count that opening computes for IMA ADPCM data against the frames its blocks decode to. */
module DrWavImaTotal {
  import opened Bytes
  import opened DrWavOpenSpec
  import opened DrWavImaSpec
  import opened DrWavImaWhole

  lemma {:induction false} GroupsCount(w: Ima, cs: seq<Channel>, pos: nat, end: nat)
    requires |cs| == w.channels && pos <= end <= |w.data| && Divides(w.channels, end - pos)
    ensures |Groups(w, cs, pos, end)| == if w.channels == 1 then 2 * (end - pos) else end - pos
    decreases end - pos
  {
    hide GroupFrames, GroupChannels, Groups;
    if pos < end {
      GroupsStep(w, cs, pos, end);
      GroupsCount(w, GroupChannels(w, cs, pos, w.channels), pos + 4 * w.channels, end);
    } else {
      GroupsNone(w, cs, pos);
    }
  }

  function HowManyBlocks(w: Ima, pos: nat, end: nat): nat
    decreases end - pos
  {
    if pos >= end then 0 else 1 + HowManyBlocks(w, pos + w.blockAlign, end)
  }

  lemma {:induction false} BlocksCount(w: Ima, pos: nat, end: nat)
    requires pos <= end <= |w.data| && WholeBlocks(w, pos, end)
    ensures var n, size := HowManyBlocks(w, pos, end), end - pos;
      |Blocks(w, pos, end)| == (if w.channels == 1 then 2 * (size - 4 * n) else size - 8 * n) + n
      && 4 * w.channels * n <= size
    decreases end - pos
  {
    hide Groups, GroupFrames, WholeBlocks, Blocks, HeaderChannels, HeaderFrame, ValidHeader;
    if pos == end {
      NoBlocks(w, end);
    } else {
      BlocksStep(w, pos, end);
      var stop := BlockEnd(w, pos, end);
      GroupsCount(w, HeaderChannels(w, pos), pos + 4 * w.channels, stop);
      BlocksCount(w, stop, end);
    }
  }

  lemma {:induction false} BlocksCeiling(w: Ima, pos: nat, end: nat)
    requires pos <= end
    ensures var n := HowManyBlocks(w, pos, end);
      end - pos <= n * w.blockAlign < end - pos + w.blockAlign
    decreases end - pos
  {
    if pos < end {
      var rest := HowManyBlocks(w, pos + w.blockAlign, end);
      if pos + w.blockAlign <= end {
        BlocksCeiling(w, pos + w.blockAlign, end);
      }
      assert (1 + rest) * w.blockAlign == w.blockAlign + rest * w.blockAlign;
    }
  }

  lemma BlockCountIs(w: Ima, size: u64, n: nat)
    requires size <= n * w.blockAlign < size + w.blockAlign && n < 0x1_0000_0000_0000_0000
    ensures BlockCount(size, w.blockAlign) == n
  {
    var b := w.blockAlign as int;
    if size == n * b {
      DivUnique(size, b, n, 0);
      assert n * b == b * n;
    } else {
      assert size == b * (n - 1) + (size - n * b + b);
      DivUnique(size, b, n - 1, size - n * b + b);
      assert (n - 1) * b == n * b - b;
    }
  }

  lemma BlockFramesIs(size: u64, fmt: Fmt, n: nat)
    requires fmt.channels == 1 || fmt.channels == 2
    requires fmt.blockAlign > 0 && BlockCount(size, fmt.blockAlign) == n
    requires 4 * fmt.channels * n <= size && 2 * size < 0x1_0000_0000_0000_0000
    ensures BlockFrames(size, fmt, 4 * fmt.channels)
         == if fmt.channels == 1 then 2 * (size - 4 * n) else size - 8 * n
  {
    hide BlockCount, ToU64;
    var headers := if fmt.channels == 1 then 4 * n else 8 * n;
    assert n * (4 * fmt.channels) == headers == 4 * fmt.channels * n;
    Fits64(headers);
    Fits64(size - headers);
    Fits64(2 * (size - headers));
  }

  lemma Fits64(x: int)
    requires 0 <= x < 0x1_0000_0000_0000_0000
    ensures ToU64(x) == x
  {
  }

  /** For whole blocks the count computed at opening is the number of frames they decode to: a file
      opened on such data is well formed. */
  lemma TotalAtOpen(w: Ima, end: nat, fmt: Fmt)
    requires fmt.channels == w.channels && fmt.blockAlign == w.blockAlign
    requires BasicallyValid(fmt) && BytesPerFrame(fmt) > 0 && TranslatedTag(fmt) == FORMAT_DVI_ADPCM
    requires w.dataPos <= end <= |w.data| && 2 * (end - w.dataPos) < 0x1_0000_0000_0000_0000
    requires WholeBlocks(w, w.dataPos, end) && w.total == FrameCount(fmt, end - w.dataPos, 0)
    ensures WellFormed(w, end)
  {
    hide WholeBlocks, Blocks, BasicallyValid, BytesPerFrame, TranslatedTag, HowManyBlocks, BlockCount, BlockFrames;
    var size := end - w.dataPos;
    var n := HowManyBlocks(w, w.dataPos, end);
    BlocksCount(w, w.dataPos, end);
    assert n <= 4 * w.channels * n <= size;
    BlocksCeiling(w, w.dataPos, end);
    BlockCountIs(w, size, n);
    BlockFramesIs(size, fmt, n);
  }
}
