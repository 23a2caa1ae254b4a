/** IMA ADPCM as dr_wav decodes it: one nibble, one channel, one block, and the decoder's state as a
    value. Section 4.5.1 of RFC 3551 describes the same predictor; here the low nibble comes first. */
module DrWavImaSpec {
  import opened Bytes

  type i16 = x: int | -0x8000 <= x < 0x8000
  type StepIndex = x: int | 0 <= x <= 88
  type Nibble = x: int | 0 <= x < 16
  type Frame = seq<i16>

  function ToI16(x: u16): i16 { if x < 0x8000 then x else x - 0x1_0000 }

  // ---------- one nibble ----------

  const INDEX_TABLE: seq<int> := [-1, -1, -1, -1, 2, 4, 6, 8, -1, -1, -1, -1, 2, 4, 6, 8]

  const STEP_TABLE: seq<nat> := [
    7, 8, 9, 10, 11, 12, 13, 14, 16, 17,
    19, 21, 23, 25, 28, 31, 34, 37, 41, 45,
    50, 55, 60, 66, 73, 80, 88, 97, 107, 118,
    130, 143, 157, 173, 190, 209, 230, 253, 279, 307,
    337, 371, 408, 449, 494, 544, 598, 658, 724, 796,
    876, 963, 1060, 1166, 1282, 1411, 1552, 1707, 1878, 2066,
    2272, 2499, 2749, 3024, 3327, 3660, 4026, 4428, 4871, 5358,
    5894, 6484, 7132, 7845, 8630, 9493, 10442, 11487, 12635, 13899,
    15289, 16818, 18500, 20350, 22385, 24623, 27086, 29794, 32767]

  /** What the decoder remembers of one channel. */
  datatype Channel = Channel(predictor: i16, stepIndex: StepIndex)

  function Clamp(x: int, lo: int, hi: int): (r: int)
    requires lo <= hi
    ensures lo <= r <= hi
  {
    if x < lo then lo else if x > hi then hi else x
  }

  function Bit(nibble: Nibble, weight: nat, n: nat): nat
    requires weight > 0
  {
    if nibble / weight % 2 == 1 then n else 0
  }

  function Diff(step: nat, nibble: Nibble): int {
    var d := step / 8 + Bit(nibble, 1, step / 4) + Bit(nibble, 2, step / 2) + Bit(nibble, 4, step);
    if nibble >= 8 then -d else d
  }

  function Next(c: Channel, nibble: Nibble): Channel {
    Channel(Clamp(c.predictor + Diff(STEP_TABLE[c.stepIndex], nibble), -0x8000, 0x7FFF),
            Clamp(c.stepIndex + INDEX_TABLE[nibble], 0, 88))
  }

  /** Nibble `i` of the bytes from `pos` on, the low one of each byte first. */
  function NibbleAt(data: seq<byte>, pos: nat, i: nat): Nibble
    requires pos + i / 2 < |data|
  {
    if i % 2 == 0 then data[pos + i / 2] % 16 else data[pos + i / 2] / 16
  }

  /** A channel after `n` nibbles. */
  function Run(c: Channel, data: seq<byte>, pos: nat, n: nat): Channel
    requires pos + (n + 1) / 2 <= |data|
  {
    if n == 0 then c else Next(Run(c, data, pos, n - 1), NibbleAt(data, pos, n - 1))
  }

  /** Its first `n` samples. */
  function Samples(c: Channel, data: seq<byte>, pos: nat, n: nat): (s: seq<i16>)
    requires pos + (n + 1) / 2 <= |data|
    ensures |s| == n
  {
    seq(n, i requires 0 <= i < n => Run(c, data, pos, i + 1).predictor)
  }

  // ---------- the file and the decoder's state ----------

  /** What opening found out about the file. */
  datatype ImaFile = ImaFile(data: seq<byte>, channels: int, blockAlign: u16, dataPos: nat, total: u64)

  type Ima = w: ImaFile | (w.channels == 1 || w.channels == 2) && w.blockAlign > 0 && w.dataPos <= |w.data|
    witness ImaFile([], 1, 1, 0, 0)

  datatype Decoder = Decoder(
    pos: nat,             // of the stream
    cursor: nat,          // frames delivered
    remaining: u32,       // bytes of the block not yet read
    chans: seq<Channel>,
    cache: seq<Frame>)    // decoded, not yet delivered

  ghost predicate Good(w: Ima, s: Decoder) {
    s.pos <= |w.data| && s.cursor <= w.total && |s.chans| == w.channels && |s.cache| <= 8
  }

  function StartOf(w: Ima): Decoder {
    Decoder(w.dataPos, 0, 0, seq(w.channels, _ => Channel(0, 0)), [])
  }

  function ValidHeader(w: Ima, pos: nat): bool
    requires pos + 4 * w.channels <= |w.data|
  {
    w.data[pos + 2] <= 88 && (w.channels == 2 ==> w.data[pos + 6] <= 88)
  }

  function HeaderChannels(w: Ima, pos: nat): (cs: seq<Channel>)
    requires pos + 4 * w.channels <= |w.data| && ValidHeader(w, pos)
    ensures |cs| == w.channels
  {
    seq(w.channels, k requires 0 <= k < w.channels =>
      Channel(ToI16(U16At(w.data, pos + 4 * k)), w.data[pos + 4 * k + 2]))
  }

  /** The header of a block carries its first frame. */
  function HeaderFrame(cs: seq<Channel>): (f: Frame)
    ensures |f| == |cs|
  {
    seq(|cs|, k requires 0 <= k < |cs| => cs[k].predictor)
  }

  /** Frame `i` of a group: four bytes for each channel in turn, eight nibbles each. */
  function GroupFrame(w: Ima, cs: seq<Channel>, pos: nat, i: nat): (f: Frame)
    requires |cs| == w.channels && pos + 4 * w.channels <= |w.data| && i < 8
    ensures |f| == w.channels
  {
    seq(w.channels, k requires 0 <= k < w.channels => Run(cs[k], w.data, pos + 4 * k, i + 1).predictor)
  }

  function GroupFrames(w: Ima, cs: seq<Channel>, pos: nat): (fs: seq<Frame>)
    requires |cs| == w.channels && pos + 4 * w.channels <= |w.data|
    ensures |fs| == 8
  {
    seq(8, i requires 0 <= i < 8 => GroupFrame(w, cs, pos, i))
  }

  /** The channels after the first `m` of them have taken in their four bytes. */
  function GroupChannels(w: Ima, cs: seq<Channel>, pos: nat, m: nat): (r: seq<Channel>)
    requires |cs| == w.channels && m <= w.channels && pos + 4 * m <= |w.data|
    ensures |r| == |cs|
  {
    seq(w.channels, k requires 0 <= k < w.channels => if k < m then Run(cs[k], w.data, pos + 4 * k, 8) else cs[k])
  }

  // ---------- filling the cache and taking frames from it ----------

  datatype Refilled = Ready(s: Decoder) | Stuck(s: Decoder)

  function LoadBlock(w: Ima, s: Decoder): (r: Refilled)
    requires Good(w, s)
    ensures Good(w, r.s) && r.s.cursor == s.cursor && (r.Ready? ==> r.s.cache != [])
  {
    var body := s.pos + 4 * w.channels;
    if body > |w.data| then Stuck(s.(pos := |w.data|))
    else if !ValidHeader(w, s.pos) then
      Stuck(s.(pos := if s.pos + w.blockAlign <= |w.data| then s.pos + w.blockAlign else body, remaining := 0))
    else
      var cs := HeaderChannels(w, s.pos);
      Ready(s.(pos := body, remaining := ToU32(w.blockAlign - 4 * w.channels), chans := cs,
               cache := [HeaderFrame(cs)]))
  }

  /** The byte counter after `m` channels took four bytes each; it wraps if the block was not whole. */
  function Left(remaining: u32, m: nat): u32 { ToU32(remaining - 4 * m) }

  lemma LeftNext(remaining: u32, m: nat)
    ensures Left(remaining, 0) == remaining
    ensures Left(remaining, m + 1) == ToU32(Left(remaining, m) as int - 4)
  {
    var q1 := Wraps(remaining - 4 * m);
    var q2 := Wraps(ToU32(remaining - 4 * m) as int - 4);
    var q3 := Wraps(remaining - 4 * m - 4);
    var q4 := Wraps(remaining);
    hide ToU32;
  }

  /** How often a number wraps. */
  lemma Wraps(x: int) returns (q: int)
    ensures x == 0x1_0000_0000 * q + ToU32(x)
  {
    q := x / 0x1_0000_0000;
  }

  function LoadGroup(w: Ima, s: Decoder): (r: Refilled)
    requires Good(w, s)
    ensures Good(w, r.s) && r.s.cursor == s.cursor && (r.Ready? ==> r.s.cache != [])
  {
    var m := Min(w.channels, (|w.data| - s.pos) / 4);
    var cs := GroupChannels(w, s.chans, s.pos, m);
    var left := Left(s.remaining, m);
    if m == w.channels then
      Ready(s.(pos := s.pos + 4 * m, remaining := left, chans := cs, cache := GroupFrames(w, s.chans, s.pos)))
    else Stuck(s.(pos := |w.data|, remaining := left, chans := cs, cache := []))
  }

  function Refill(w: Ima, s: Decoder): (r: Refilled)
    requires Good(w, s)
    ensures Good(w, r.s) && r.s.cursor == s.cursor && (r.Ready? ==> r.s.cache != [])
  {
    if s.remaining == 0 then LoadBlock(w, s) else LoadGroup(w, s)
  }

  datatype Taken = Taken(frames: seq<Frame>, s: Decoder)

  /** The next `n` frames, or as many as there are before the end or a failure. */
  function Take(w: Ima, s: Decoder, n: nat): (r: Taken)
    requires Good(w, s)
    ensures Good(w, r.s) && |r.frames| <= n && r.s.cursor == s.cursor + |r.frames|
    decreases w.total - s.cursor, s.cache == []
  {
    if n == 0 || s.cursor >= w.total then Taken([], s)
    else if s.cache != [] then
      var r := Take(w, Served(s), n - 1);
      Taken([s.cache[0]] + r.frames, r.s)
    else
      match Refill(w, s)
      case Stuck(t) => Taken([], t)
      case Ready(t) => Take(w, t, n)
  }

  /** One call to the reader: as many of the `n` frames as `Take` gives. A call that wants more than the
      file has decodes one group past the last frame if the block it ends in has bytes left. */
  function ReadFrames(w: Ima, s: Decoder, n: nat): (r: Taken)
    requires Good(w, s)
    ensures Good(w, r.s) && r.frames == Take(w, s, n).frames && r.s.cursor == s.cursor + |r.frames|
  {
    if s.cursor >= w.total then Taken([], s) else Overrun(w, Take(w, s, n), n)
  }

  function Overrun(w: Ima, r: Taken, n: nat): (o: Taken)
    requires Good(w, r.s)
    ensures Good(w, o.s) && o.frames == r.frames && o.s.cursor == r.s.cursor
  {
    if |r.frames| < n && r.s.cursor == w.total && r.s.cache == [] && r.s.remaining != 0 then
      Taken(r.frames, LoadGroup(w, r.s).s)
    else r
  }

  /** For any data at all, well formed or not: taking `a` frames and then `b` is taking `a + b`, as long
      as the first `a` all came; if they did not, taking more would not have changed anything. */
  lemma {:induction false} TakeSplit(w: Ima, s: Decoder, a: nat, b: nat)
    requires Good(w, s)
    ensures Take(w, s, a + b) == Then(w, Take(w, s, a), a, b)
    decreases w.total - s.cursor, s.cache == []
  {
    hide LoadBlock, LoadGroup, Refill, Take;
    if a == 0 || s.cursor >= w.total {
      TakeNone(w, s, a);
      if s.cursor >= w.total {
        TakeNone(w, s, a + b);
        TakeNone(w, s, b);
      }
      assert [] + Take(w, s, b).frames == Take(w, s, b).frames;
    } else if s.cache != [] {
      TakeSplit(w, Served(s), a - 1, b);
      TakeOne(w, s, a);
      TakeOne(w, s, a + b);
      ThenOne(w, s.cache[0], Take(w, Served(s), a - 1), a - 1, b);
    } else {
      TakeRefill(w, s, a);
      TakeRefill(w, s, a + b);
      var r := Refill(w, s);
      if r.Ready? {
        TakeSplit(w, r.s, a, b);
      }
    }
  }

  /** The same for two calls: one call for `a + b` frames delivers what the two deliver, provided the
      first call was not cut short; and a call that was cut short is cut short however much it asks for. */
  lemma ReadTwice(w: Ima, s: Decoder, a: nat, b: nat)
    requires Good(w, s)
    ensures var first := ReadFrames(w, s, a);
      ReadFrames(w, s, a + b).frames
      == if |first.frames| < a then first.frames else first.frames + ReadFrames(w, first.s, b).frames
  {
    hide Take, LoadGroup;
    TakeSplit(w, s, a, b);
  }

  /** `b` more frames, if the first `a` all came. */
  function Then(w: Ima, first: Taken, a: nat, b: nat): Taken
    requires Good(w, first.s)
  {
    if |first.frames| < a then first
    else Taken(first.frames + Take(w, first.s, b).frames, Take(w, first.s, b).s)
  }

  lemma ThenOne(w: Ima, f: Frame, first: Taken, a: nat, b: nat)
    requires Good(w, first.s)
    ensures Then(w, Taken([f] + first.frames, first.s), a + 1, b)
         == Taken([f] + Then(w, first, a, b).frames, Then(w, first, a, b).s)
  {
    hide Take;
    assert [f] + first.frames + Take(w, first.s, b).frames == [f] + (first.frames + Take(w, first.s, b).frames);
  }

  /** The state after delivering one cached frame. */
  function Served(s: Decoder): Decoder
    requires s.cache != []
  {
    s.(cache := s.cache[1..], cursor := s.cursor + 1)
  }

  lemma TakeNone(w: Ima, s: Decoder, n: nat)
    requires Good(w, s) && (n == 0 || s.cursor >= w.total)
    ensures Take(w, s, n) == Taken([], s)
  {
  }

  lemma TakeOne(w: Ima, s: Decoder, n: nat)
    requires Good(w, s) && n > 0 && s.cursor < w.total && s.cache != []
    ensures Good(w, Served(s))
    ensures var r := Take(w, Served(s), n - 1); Take(w, s, n) == Taken([s.cache[0]] + r.frames, r.s)
  {
    hide LoadBlock, LoadGroup, Refill;
  }

  lemma TakeRefill(w: Ima, s: Decoder, n: nat)
    requires Good(w, s) && n > 0 && s.cursor < w.total && s.cache == []
    ensures Take(w, s, n) == if Refill(w, s).Stuck? then Taken([], Refill(w, s).s) else Take(w, Refill(w, s).s, n)
  {
    hide LoadBlock, LoadGroup, Refill;
  }

  // ---------- seeking ----------

  datatype Sought = Sought(ok: bool, s: Decoder)

  /** Backwards from the start of the data, forwards from here, by taking the frames in between. */
  function SeekTo(w: Ima, s: Decoder, target: nat): (r: Sought)
    requires Good(w, s)
    ensures Good(w, r.s) && (r.ok && w.total > 0 ==> r.s.cursor == Min(target, w.total))
  {
    var t := Min(target, w.total);
    var from := if t < s.cursor then StartOf(w) else s;
    var n := t - from.cursor;
    var r := Take(w, from, n);
    if w.total == 0 then Sought(true, s) else Sought(|r.frames| == n, r.s)
  }
}
