/** The decoder against a plain sequence of frames: on whole blocks, what it still has to deliver is
    always the rest of the decoded file, however reads are split and wherever it seeks. */
module DrWavImaWhole {
  import opened Bytes
  import opened DrWavImaSpec

  // ---------- the decoded file ----------

  predicate Divides(channels: int, n: int) { if channels == 1 then n % 4 == 0 else n % 8 == 0 }

  /** The frames of the whole groups between two offsets. */
  function Groups(w: Ima, cs: seq<Channel>, pos: nat, end: nat): (fs: seq<Frame>)
    requires |cs| == w.channels && end <= |w.data|
    decreases end - pos
  {
    if pos + 4 * w.channels > end then []
    else
      GroupFrames(w, cs, pos)
      + Groups(w, GroupChannels(w, cs, pos, w.channels), pos + 4 * w.channels, end)
  }

  /** Blocks of `blockAlign` bytes fill the data up to `end`: a header of valid step indices and whole
      groups. The last block may be cut short after any group. */
  predicate WholeBlocks(w: Ima, pos: nat, end: nat)
    requires end <= |w.data|
    decreases end - pos
  {
    pos == end
    || (pos + 4 * w.channels <= BlockEnd(w, pos, end) && Divides(w.channels, BlockEnd(w, pos, end) - pos)
        && ValidHeader(w, pos) && WholeBlocks(w, BlockEnd(w, pos, end), end))
  }

  function BlockEnd(w: Ima, pos: nat, end: nat): nat { Min(pos + w.blockAlign, end) }

  /** The frames of the blocks. */
  function Blocks(w: Ima, pos: nat, end: nat): (fs: seq<Frame>)
    requires end <= |w.data| && WholeBlocks(w, pos, end)
    decreases end - pos
  {
    if pos == end then []
    else
      var cs := HeaderChannels(w, pos);
      [HeaderFrame(cs)] + Groups(w, cs, pos + 4 * w.channels, BlockEnd(w, pos, end))
      + Blocks(w, BlockEnd(w, pos, end), end)
  }

  /** A file whose data chunk, up to `end`, is whole blocks and whose frame count is theirs. */
  predicate WellFormed(w: Ima, end: nat) {
    w.dataPos <= end <= |w.data| && WholeBlocks(w, w.dataPos, end) && w.total == |Blocks(w, w.dataPos, end)|
  }

  function Whole(w: Ima, end: nat): seq<Frame>
    requires WellFormed(w, end)
  {
    Blocks(w, w.dataPos, end)
  }

  // ---------- what is still to come ----------

  /** Where the current block ends. */
  function Stop(s: Decoder, end: nat): nat { Min(s.pos + s.remaining, end) }

  predicate OnGrid(w: Ima, s: Decoder, end: nat)
    requires end <= |w.data|
  {
    s.pos <= end && Divides(w.channels, Stop(s, end) - s.pos) && WholeBlocks(w, Stop(s, end), end)
  }

  /** The cache, then the rest of the block, then the later blocks. */
  function Pending(w: Ima, s: Decoder, end: nat): seq<Frame>
    requires end <= |w.data| && |s.chans| == w.channels && OnGrid(w, s, end)
  {
    s.cache + Groups(w, s.chans, s.pos, Stop(s, end)) + Blocks(w, Stop(s, end), end)
  }

  /** The invariant of every run on a well-formed file. */
  ghost predicate InStep(w: Ima, s: Decoder, end: nat)
    requires WellFormed(w, end)
  {
    Good(w, s) && OnGrid(w, s, end) && Pending(w, s, end) == Whole(w, end)[s.cursor..]
  }

  lemma GroupsNone(w: Ima, cs: seq<Channel>, pos: nat)
    requires |cs| == w.channels && pos <= |w.data|
    ensures Groups(w, cs, pos, pos) == []
  {
  }

  lemma StartInStep(w: Ima, end: nat)
    requires WellFormed(w, end)
    ensures Good(w, StartOf(w)) && InStep(w, StartOf(w), end)
  {
    hide Groups, Blocks, WholeBlocks;
    var s := StartOf(w);
    GroupsNone(w, s.chans, s.pos);
    NothingBefore(Blocks(w, w.dataPos, end));
  }

  lemma NothingBefore<T>(s: seq<T>)
    ensures [] + [] + s == s && s[0..] == s
  {
  }

  lemma ServedInStep(w: Ima, s: Decoder, end: nat)
    requires WellFormed(w, end) && InStep(w, s, end) && s.cache != [] && s.cursor < w.total
    ensures InStep(w, Served(s), end) && s.cache[0] == Whole(w, end)[s.cursor]
  {
    hide Blocks, WholeBlocks, Groups;
    var t := Served(s);
    assert Pending(w, s, end) == [s.cache[0]] + Pending(w, t, end);
    assert Whole(w, end)[s.cursor..] == [Whole(w, end)[s.cursor]] + Whole(w, end)[t.cursor..];
  }

  /** On whole blocks a refill never fails, and only moves frames into the cache. */
  lemma RefillInStep(w: Ima, s: Decoder, end: nat)
    requires WellFormed(w, end) && InStep(w, s, end) && s.cache == [] && s.cursor < w.total
    ensures Refill(w, s).Ready? && InStep(w, Refill(w, s).s, end)
  {
    hide Whole, GroupFrames, GroupChannels, HeaderChannels, HeaderFrame, LoadBlock, LoadGroup;
    assert Whole(w, end)[s.cursor..] != [] by { WholeLength(w, end); }
    if s.remaining == 0 {
      BlockLoaded(w, s, end);
    } else {
      GroupLoaded(w, s, end);
    }
  }

  lemma WholeLength(w: Ima, end: nat)
    requires WellFormed(w, end)
    ensures |Whole(w, end)| == w.total
  {
  }

  lemma BlockLoaded(w: Ima, s: Decoder, end: nat)
    requires Good(w, s) && |s.chans| == w.channels && end <= |w.data| && OnGrid(w, s, end)
    requires s.cache == [] && s.remaining == 0
    requires Pending(w, s, end) != []
    ensures var r := LoadBlock(w, s);
      r.Ready? && OnGrid(w, r.s, end) && Pending(w, r.s, end) == Pending(w, s, end)
  {
    hide Groups, Blocks, WholeBlocks, HeaderChannels, HeaderFrame, LoadBlock, ValidHeader, Good;
    GroupsNone(w, s.chans, s.pos);
    NothingBefore(Blocks(w, s.pos, end));
    if s.pos == end {
      NoBlocks(w, end);
      assert false;
    } else {
      BlocksStep(w, s.pos, end);
      LoadBlockOk(w, s);
    }
  }

  lemma NoBlocks(w: Ima, end: nat)
    requires end <= |w.data|
    ensures WholeBlocks(w, end, end) && Blocks(w, end, end) == []
  {
  }

  lemma BlocksStep(w: Ima, pos: nat, end: nat)
    requires end <= |w.data| && WholeBlocks(w, pos, end) && pos != end
    ensures pos + 4 * w.channels <= BlockEnd(w, pos, end) && Divides(w.channels, BlockEnd(w, pos, end) - pos)
    ensures ValidHeader(w, pos) && WholeBlocks(w, BlockEnd(w, pos, end), end)
    ensures var cs := HeaderChannels(w, pos);
      Blocks(w, pos, end)
      == [HeaderFrame(cs)] + Groups(w, cs, pos + 4 * w.channels, BlockEnd(w, pos, end))
         + Blocks(w, BlockEnd(w, pos, end), end)
  {
    hide Groups, HeaderChannels, HeaderFrame, ValidHeader;
  }

  lemma LoadBlockOk(w: Ima, s: Decoder)
    requires Good(w, s) && s.pos + 4 * w.channels <= |w.data| && ValidHeader(w, s.pos)
    requires 4 * w.channels <= w.blockAlign
    ensures var cs := HeaderChannels(w, s.pos);
      LoadBlock(w, s) == Ready(Decoder(s.pos + 4 * w.channels, s.cursor, w.blockAlign - 4 * w.channels, cs,
                                       [HeaderFrame(cs)]))
  {
    hide HeaderChannels, HeaderFrame, ValidHeader;
  }

  lemma GroupLoaded(w: Ima, s: Decoder, end: nat)
    requires Good(w, s) && |s.chans| == w.channels && end <= |w.data| && OnGrid(w, s, end)
    requires s.cache == [] && s.remaining > 0
    requires Pending(w, s, end) != []
    ensures var r := LoadGroup(w, s);
      r.Ready? && OnGrid(w, r.s, end) && Pending(w, r.s, end) == Pending(w, s, end)
  {
    hide Groups, Blocks, WholeBlocks, GroupFrames, GroupChannels, LoadGroup, Good;
    var stop := Stop(s, end);
    if s.pos == stop {
      GroupsNone(w, s.chans, s.pos);
      NoBlocks(w, end);
      assert false;
    } else {
      GroupsStep(w, s.chans, s.pos, stop);
      LoadGroupOk(w, s);
      NothingBefore(Groups(w, s.chans, s.pos, stop));
    }
  }

  lemma GroupsStep(w: Ima, cs: seq<Channel>, pos: nat, end: nat)
    requires |cs| == w.channels && pos < end <= |w.data| && Divides(w.channels, end - pos)
    ensures pos + 4 * w.channels <= end && Divides(w.channels, end - pos - 4 * w.channels)
    ensures Groups(w, cs, pos, end)
         == GroupFrames(w, cs, pos)
            + Groups(w, GroupChannels(w, cs, pos, w.channels), pos + 4 * w.channels, end)
  {
    hide GroupFrames, GroupChannels;
  }

  lemma LoadGroupOk(w: Ima, s: Decoder)
    requires Good(w, s) && s.pos + 4 * w.channels <= |w.data| && 4 * w.channels <= s.remaining
    ensures LoadGroup(w, s)
         == Ready(Decoder(s.pos + 4 * w.channels, s.cursor, s.remaining - 4 * w.channels,
                          GroupChannels(w, s.chans, s.pos, w.channels), GroupFrames(w, s.chans, s.pos)))
  {
    hide GroupFrames, GroupChannels;
  }

  // ---------- reads and seeks on whole blocks ----------

  /** At most `n` frames of the whole file from `from` on. */
  function Window(w: Ima, end: nat, from: nat, n: nat): seq<Frame>
    requires WellFormed(w, end) && from <= w.total
  {
    WholeLength(w, end);
    Whole(w, end)[from..Min(from + n, w.total)]
  }

  lemma WindowNone(w: Ima, end: nat, from: nat, n: nat)
    requires WellFormed(w, end) && from <= w.total
    ensures n == 0 || from == w.total ==> Window(w, end, from, n) == []
  {
  }

  lemma WindowStep(w: Ima, end: nat, from: nat, n: nat)
    requires WellFormed(w, end) && from < w.total == |Whole(w, end)| && n > 0
    ensures Window(w, end, from, n) == [Whole(w, end)[from]] + Window(w, end, from + 1, n - 1)
  {
    hide Whole;
  }

  lemma {:induction false} TakeWhole(w: Ima, s: Decoder, n: nat, end: nat)
    requires WellFormed(w, end) && InStep(w, s, end)
    ensures Take(w, s, n).frames == Window(w, end, s.cursor, n) && InStep(w, Take(w, s, n).s, end)
    decreases w.total - s.cursor, s.cache == []
  {
    hide Whole, Refill, Take, OnGrid, Pending, Blocks, WellFormed, Window;
    WholeLength(w, end);
    WindowNone(w, end, s.cursor, n);
    if n == 0 || s.cursor >= w.total {
      TakeNone(w, s, n);
    } else if s.cache != [] {
      ServedInStep(w, s, end);
      TakeOne(w, s, n);
      TakeWhole(w, Served(s), n - 1, end);
      WindowStep(w, end, s.cursor, n);
    } else {
      RefillInStep(w, s, end);
      TakeRefill(w, s, n);
      TakeWhole(w, Refill(w, s).s, n, end);
    }
  }

  /** What every call leaves: in step, unless the last frame is out. */
  ghost predicate OnTrack(w: Ima, s: Decoder, end: nat)
    requires WellFormed(w, end)
  {
    Good(w, s) && (InStep(w, s, end) || s.cursor == w.total)
  }

  lemma ReadOnTrack(w: Ima, s: Decoder, n: nat, end: nat)
    requires WellFormed(w, end) && OnTrack(w, s, end)
    ensures var r := ReadFrames(w, s, n);
      r.frames == Window(w, end, s.cursor, n) && OnTrack(w, r.s, end)
      && r.s.cursor == Min(s.cursor + n, w.total)
  {
    hide Take, LoadGroup, Whole, OnGrid, Pending, WellFormed;
    WholeLength(w, end);
    if s.cursor < w.total {
      TakeWhole(w, s, n, end);
    }
  }

  lemma SeekOnTrack(w: Ima, s: Decoder, target: nat, end: nat)
    requires WellFormed(w, end) && OnTrack(w, s, end)
    ensures var r := SeekTo(w, s, target);
      r.ok && OnTrack(w, r.s, end) && r.s.cursor == Min(target, w.total)
  {
    hide Take, Whole, InStep, WellFormed, StartOf, SeekTo;
    var t := Min(target, w.total);
    StartCursor(w);
    if t < s.cursor {
      StartInStep(w, end);
      TakeOnTrack(w, StartOf(w), t, end);
    } else {
      TakeOnTrack(w, s, t - s.cursor, end);
    }
    SeekIsTake(w, s, target);
  }

  lemma SeekIsTake(w: Ima, s: Decoder, target: nat)
    requires Good(w, s)
    ensures var t := Min(target, w.total);
      var from := if t < s.cursor then StartOf(w) else s;
      var r := Take(w, from, t - from.cursor);
      Good(w, from) && from.cursor <= t && SeekTo(w, s, target) == Sought(|r.frames| == t - from.cursor, r.s)
  {
    hide Take, LoadBlock, LoadGroup, Refill;
    if w.total == 0 {
      TakeNone(w, s, 0);
    }
  }

  /** Taking no more frames than there are. */
  lemma TakeOnTrack(w: Ima, s: Decoder, n: nat, end: nat)
    requires WellFormed(w, end) && OnTrack(w, s, end) && s.cursor + n <= w.total
    ensures var r := Take(w, s, n); |r.frames| == n && OnTrack(w, r.s, end)
  {
    hide Take, Whole, OnGrid, Pending, WellFormed;
    WholeLength(w, end);
    if s.cursor == w.total {
      TakeNone(w, s, n);
    } else {
      TakeWhole(w, s, n, end);
    }
  }

  lemma StartCursor(w: Ima)
    ensures StartOf(w).cursor == 0 && Good(w, StartOf(w))
  {
  }

  /** Seeking to frame `n` from anywhere and reading `k` frames gives frames `n` to `n + k` of the file. */
  lemma SeekThenRead(w: Ima, s: Decoder, n: nat, k: nat, end: nat)
    requires WellFormed(w, end) && OnTrack(w, s, end)
    ensures ReadFrames(w, SeekTo(w, s, n).s, k).frames == Window(w, end, Min(n, w.total), k)
  {
    hide SeekTo, ReadFrames, Window, InStep, WellFormed;
    SeekOnTrack(w, s, n, end);
    ReadOnTrack(w, SeekTo(w, s, n).s, k, end);
  }

  // ---------- whole runs ----------

  datatype Call = ReadCall(n: nat) | SeekCall(target: nat)

  /** What the calls of a run deliver. */
  function Delivered(w: Ima, s: Decoder, calls: seq<Call>): seq<seq<Frame>>
    requires Good(w, s)
    decreases |calls|
  {
    if calls == [] then [] else
      var r := OneCall(w, s, calls[0]);
      [r.frames] + Delivered(w, r.s, calls[1..])
  }

  function OneCall(w: Ima, s: Decoder, call: Call): (r: Taken)
    requires Good(w, s)
    ensures Good(w, r.s)
  {
    match call
    case ReadCall(n) => ReadFrames(w, s, n)
    case SeekCall(target) => Taken([], SeekTo(w, s, target).s)
  }

  /** What they would deliver from a plain sequence of frames with a cursor. */
  function PlainRun(frames: seq<Frame>, cursor: nat, calls: seq<Call>): seq<seq<Frame>>
    requires cursor <= |frames|
    decreases |calls|
  {
    if calls == [] then []
    else
      match calls[0]
      case ReadCall(n) =>
        var stop := Min(cursor + n, |frames|);
        [frames[cursor..stop]] + PlainRun(frames, stop, calls[1..])
      case SeekCall(target) => [[]] + PlainRun(frames, Min(target, |frames|), calls[1..])
  }

  /** Any run of reads and seeks acts on the plain sequence of decoded frames. */
  lemma {:induction false} RunIsPlain(w: Ima, s: Decoder, calls: seq<Call>, end: nat)
    requires WellFormed(w, end) && OnTrack(w, s, end)
    ensures s.cursor <= |Whole(w, end)|
    ensures Delivered(w, s, calls) == PlainRun(Whole(w, end), s.cursor, calls)
    decreases |calls|
  {
    hide OneCall, WellFormed, Whole, OnTrack, Good;
    OnTrackGood(w, s, end);
    WholeLength(w, end);
    if calls != [] {
      CallOnTrack(w, s, calls[0], end);
      RunIsPlain(w, OneCall(w, s, calls[0]).s, calls[1..], end);
    }
  }

  lemma OnTrackGood(w: Ima, s: Decoder, end: nat)
    requires WellFormed(w, end) && OnTrack(w, s, end)
    ensures Good(w, s) && s.cursor <= w.total
  {
  }

  lemma CallOnTrack(w: Ima, s: Decoder, call: Call, end: nat)
    requires WellFormed(w, end) && OnTrack(w, s, end)
    ensures var r := OneCall(w, s, call);
      OnTrack(w, r.s, end) && s.cursor <= w.total == |Whole(w, end)|
      && match call
         case ReadCall(n) =>
           r.s.cursor == Min(s.cursor + n, w.total) && r.frames == Whole(w, end)[s.cursor..r.s.cursor]
         case SeekCall(target) => r.s.cursor == Min(target, w.total) && r.frames == []
  {
    hide ReadFrames, SeekTo, WellFormed, Whole, InStep;
    WholeLength(w, end);
    match call {
      case ReadCall(n) => ReadOnTrack(w, s, n, end);
      case SeekCall(target) => SeekOnTrack(w, s, target, end);
    }
  }

  /** With the last frame out, the stream stands exactly at the end of the data. */
  lemma Consumed(w: Ima, s: Decoder, end: nat)
    requires WellFormed(w, end) && InStep(w, s, end) && s.cursor == w.total
    ensures s.pos == end && s.cache == []
  {
    hide Groups, Blocks, WholeBlocks, GroupFrames, GroupChannels;
    WholeLength(w, end);
    assert Pending(w, s, end) == [];
    var stop := Stop(s, end);
    if s.pos < stop {
      GroupsStep(w, s.chans, s.pos, stop);
      assert false;
    }
    if stop < end {
      BlocksStep(w, stop, end);
      assert false;
    }
  }

  /** Reading everything from the start delivers the whole file and consumes exactly the data. */
  lemma DecodeAll(w: Ima, end: nat)
    requires WellFormed(w, end)
    ensures var r := ReadFrames(w, StartOf(w), w.total);
      r.frames == Whole(w, end) && (w.total > 0 ==> r.s.pos == end)
  {
    hide Take, LoadGroup, Whole, StartOf, WellFormed, InStep;
    StartCursor(w);
    StartInStep(w, end);
    WholeLength(w, end);
    TakeWhole(w, StartOf(w), w.total, end);
    assert Window(w, end, 0, w.total) == Whole(w, end);
    Consumed(w, Take(w, StartOf(w), w.total).s, end);
  }

  // ---------- a block, channel by channel ----------

  /** Nibble `n` of channel `k` in the groups from `pos` on: four bytes of every group are its own. */
  function StreamNibble(w: Ima, pos: nat, k: nat, n: nat): Nibble
    requires k < w.channels && GroupStart(w, pos, n) + 4 * w.channels <= |w.data|
  {
    NibbleAt(w.data, GroupStart(w, pos, n) + 4 * k, n % 8)
  }

  /** The group that holds nibble `n` of each channel. */
  function GroupStart(w: Ima, pos: nat, n: nat): nat {
    pos + if w.channels == 1 then 4 * (n / 8) else 8 * (n / 8)
  }

  /** Channel `k` after `n` of its own nibbles, other channels never mentioned. */
  function StreamRun(w: Ima, c: Channel, pos: nat, k: nat, n: nat): Channel
    requires k < w.channels && (n > 0 ==> GroupStart(w, pos, n - 1) + 4 * w.channels <= |w.data|)
  {
    if n == 0 then c else Next(StreamRun(w, c, pos, k, n - 1), StreamNibble(w, pos, k, n - 1))
  }

  lemma {:induction false} StreamInGroup(w: Ima, c: Channel, pos: nat, k: nat, n: nat)
    requires k < w.channels && n <= 8 && pos + 4 * w.channels <= |w.data|
    ensures StreamRun(w, c, pos, k, n) == Run(c, w.data, pos + 4 * k, n)
  {
    hide Next, NibbleAt;
    if n > 0 {
      StreamInGroup(w, c, pos, k, n - 1);
    }
  }

  lemma {:induction false} StreamShift(w: Ima, c: Channel, pos: nat, k: nat, n: nat)
    requires k < w.channels && n >= 8 && GroupStart(w, pos, n - 1) + 4 * w.channels <= |w.data|
    ensures StreamRun(w, c, pos, k, n)
         == StreamRun(w, StreamRun(w, c, pos, k, 8), pos + 4 * w.channels, k, n - 8)
  {
    hide Next, NibbleAt;
    if n > 8 {
      StreamShift(w, c, pos, k, n - 1);
      assert GroupStart(w, pos, n - 1) == GroupStart(w, pos + 4 * w.channels, n - 9);
    }
  }

  /** Sample `k` of frame `i` of a run of groups is channel `k` after `i + 1` of its own nibbles. */
  lemma {:induction false} GroupsPerChannel(w: Ima, cs: seq<Channel>, pos: nat, end: nat, i: nat, k: nat)
    requires |cs| == w.channels && pos <= end <= |w.data| && Divides(w.channels, end - pos)
    requires k < w.channels && i < |Groups(w, cs, pos, end)|
    ensures GroupStart(w, pos, i) + 4 * w.channels <= end
    ensures |Groups(w, cs, pos, end)[i]| == w.channels
    ensures Groups(w, cs, pos, end)[i][k] == StreamRun(w, cs[k], pos, k, i + 1).predictor
    decreases end - pos
  {
    hide Groups, StreamRun, Run;
    if pos == end {
      GroupsNone(w, cs, pos);
      assert false;
    } else {
      GroupsStep(w, cs, pos, end);
      if i < 8 {
        StreamInGroup(w, cs[k], pos, k, i + 1);
      } else {
        var next := GroupChannels(w, cs, pos, w.channels);
        GroupsPerChannel(w, next, pos + 4 * w.channels, end, i - 8, k);
        StreamInGroup(w, cs[k], pos, k, 8);
        StreamShift(w, cs[k], pos, k, i + 1);
      }
    }
  }
}
