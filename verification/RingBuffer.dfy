/** The ring buffer with a wrap flag and a read position that can move backwards, against a tape of
    fixed length with a movable boundary between history and unread elements. */
module RingBuffer {
  import opened Bytes

  // ---------- the tape ----------

  /** The last elements written, oldest first. Those from the boundary on have not been read. */
  datatype Tape<T> = Tape(cells: seq<T>, boundary: nat) {
    predicate Valid() { boundary <= |cells| }

    function Unread(): seq<T>
      requires Valid()
    {
      cells[boundary..]
    }

    function History(): seq<T>
      requires Valid()
    {
      cells[..boundary]
    }

    /** How far the boundary goes when asked to move by `k`. */
    function Clamp(k: int): (c: int)
      requires Valid()
      ensures 0 <= boundary + c <= |cells|
    {
      if k > |cells| - boundary then |cells| - boundary else if k + boundary < 0 then 0 - boundary else k
    }

    function Move(k: int): (t: Tape<T>)
      requires Valid()
      ensures t.Valid()
    {
      Tape(cells, boundary + Clamp(k))
    }

    /** What fits drops off the front and is appended. */
    function Write(xs: seq<T>): (t: Tape<T>)
      requires Valid()
      ensures t.Valid() && |t.cells| == |cells|
    {
      var k := Min(boundary, |xs|);
      Tape(cells[k..] + xs[..k], boundary - k)
    }
  }

  /** Reading `n` and stepping back by what was read restores the buffer. */
  lemma ReadThenStepBack<T>(t: Tape<T>, n: nat)
    requires t.Valid()
    ensures t.Move(n).Move(-t.Clamp(n)) == t
  {
  }

  /** Stepping back brings exactly the newest history in front of what is unread. */
  lemma Stuffing<T>(t: Tape<T>, k: nat)
    requires t.Valid() && k <= t.boundary
    ensures t.Move(-(k as int)).Unread() == t.History()[t.boundary - k..] + t.Unread()
  {
  }

  lemma WriteAppends<T>(t: Tape<T>, xs: seq<T>)
    requires t.Valid()
    ensures var k := Min(t.boundary, |xs|);
      t.Write(xs).Unread() == t.Unread() + xs[..k] && t.Write(xs).History() == t.History()[k..]
  {
  }

  datatype Op<T> = WriteOp(xs: seq<T>) | MoveOp(k: int)

  function Apply<T>(t: Tape<T>, op: Op<T>): (r: Tape<T>)
    requires t.Valid()
    ensures r.Valid() && |r.cells| == |t.cells|
  {
    match op case WriteOp(xs) => t.Write(xs) case MoveOp(k) => t.Move(k)
  }

  function ApplyAll<T>(t: Tape<T>, ops: seq<Op<T>>): (r: Tape<T>)
    requires t.Valid()
    ensures r.Valid() && |r.cells| == |t.cells|
    decreases |ops|
  {
    if ops == [] then t else ApplyAll(Apply(t, ops[0]), ops[1..])
  }

  /** The elements the writes of a run found room for. */
  function Accepted<T>(t: Tape<T>, ops: seq<Op<T>>): seq<T>
    requires t.Valid()
    decreases |ops|
  {
    if ops == [] then []
    else
      (match ops[0] case WriteOp(xs) => xs[..Min(t.boundary, |xs|)] case MoveOp(_) => [])
      + Accepted(Apply(t, ops[0]), ops[1..])
  }

  /** How far a run has moved the boundary, forwards minus backwards. */
  function Moved<T>(t: Tape<T>, ops: seq<Op<T>>): int
    requires t.Valid()
    decreases |ops|
  {
    if ops == [] then 0
    else (match ops[0] case WriteOp(_) => 0 case MoveOp(k) => t.Clamp(k)) + Moved(Apply(t, ops[0]), ops[1..])
  }

  /** Over any run of writes, reads and moves the buffer holds the last elements of the stream that was
      accepted, and the reader stands where its moves have taken it in that stream. */
  lemma {:induction false} WindowOfStream<T>(t: Tape<T>, ops: seq<Op<T>>)
    requires t.Valid()
    ensures var stream, r := t.cells + Accepted(t, ops), ApplyAll(t, ops);
      r.cells == stream[|stream| - |t.cells|..]
      && |stream| - |t.cells| + r.boundary == t.boundary + Moved(t, ops)
    decreases |ops|
  {
    if ops != [] {
      var u := Apply(t, ops[0]);
      WindowOfStream(u, ops[1..]);
      var rest := Accepted(u, ops[1..]);
      match ops[0] {
        case WriteOp(xs) =>
          var k := Min(t.boundary, |xs|);
          assert t.cells + (xs[..k] + rest) == t.cells[..k] + (u.cells + rest);
        case MoveOp(_) =>
          assert [] + rest == rest;
      }
    }
  }

  // ---------- the buffer ----------

  datatype Wrap = SameWrap | DiffWrap

  /** Where a read leaves its elements: nothing read, a region of the buffer, or the caller's memory. */
  datatype Place = Nowhere | InBuffer(pos: nat) | InData

  function Patched<T>(d: seq<T>, pos: nat, xs: seq<T>): (r: seq<T>)
    requires pos + |xs| <= |d|
    ensures |r| == |d|
  {
    d[..pos] + xs + d[pos + |xs|..]
  }

  /** memcpy. */
  method CopyInto<T>(a: array<T>, pos: nat, xs: seq<T>)
    requires pos + |xs| <= a.Length
    modifies a
    ensures a[..] == Patched(old(a[..]), pos, xs)
  {
    forall i | 0 <= i < |xs| { a[pos + i] := xs[i]; }
  }

  /** Two regions, one behind the other. */
  method CopyRegions<T>(a: array<T>, xs: seq<T>, ys: seq<T>)
    requires |xs| + |ys| <= a.Length
    modifies a
    ensures a[..|xs| + |ys|] == xs + ys && a[|xs| + |ys|..] == old(a[|xs| + |ys|..])
  {
    ghost var rest := a[|xs|..];
    CopyInto(a, 0, xs);
    assert a[..] == xs + rest;
    CopyInto(a, |xs|, ys);
    assert a[..] == xs + ys + rest[|ys|..];
  }

  /** The cells of the tape, oldest first, from the array and the write position. */
  function Rotation<T>(d: seq<T>, w: nat): (r: seq<T>)
    requires w <= |d|
    ensures |r| == |d|
  {
    d[w..] + d[..w]
  }

  lemma WriteIs<T>(t: Tape<T>, xs: seq<T>, k: nat)
    requires t.Valid() && k == Min(t.boundary, |xs|)
    ensures t.Write(xs) == Tape(t.cells[k..] + xs[..k], t.boundary - k)
  {
  }

  lemma RotateStraight<T>(d: seq<T>, w: nat, xs: seq<T>)
    requires w + |xs| <= |d|
    ensures Rotation(Patched(d, w, xs), w + |xs|) == Rotation(d, w)[|xs|..] + xs
  {
    var d' := Patched(d, w, xs);
    assert d'[w + |xs|..] == d[w + |xs|..] && d'[..w + |xs|] == d[..w] + xs;
    assert d[w..][|xs|..] == d[w + |xs|..];
  }

  lemma RotateWrapped<T>(d: seq<T>, w: nat, xs: seq<T>, margin: nat)
    requires w + margin == |d| && margin <= |xs| <= |d|
    ensures Rotation(Patched(Patched(d, w, xs[..margin]), 0, xs[margin..]), |xs| - margin)
         == Rotation(d, w)[|xs|..] + xs
  {
    var k := |xs| - margin;
    var d1 := Patched(d, w, xs[..margin]);
    var d2 := Patched(d1, 0, xs[margin..]);
    assert d1 == d[..w] + xs[..margin];
    assert d2[..k] == xs[margin..] && d2[k..] == d[k..w] + xs[..margin];
    assert Rotation(d, w)[|xs|..] == d[k..w];
  }

  class RingBuffer<T(0)> {
    const data: array<T>
    var readPos: nat
    var writePos: nat
    var rwWrap: Wrap

    ghost predicate Valid()
      reads this
    {
      0 < data.Length && readPos <= data.Length && writePos <= data.Length
      && (if rwWrap == SameWrap then readPos <= writePos else writePos <= readPos)
    }

    /** The elements from the write position on are the oldest. */
    ghost function Abs(): (t: Tape<T>)
      requires Valid()
      reads this, data
      ensures t.Valid() && |t.cells| == data.Length
    {
      Tape(Rotation(data[..], writePos), data.Length - Readable())
    }

    function Readable(): (n: nat)
      requires Valid()
      reads this
      ensures n <= data.Length
    {
      if rwWrap == SameWrap then writePos - readPos else data.Length - readPos + writePos
    }

    constructor (elementCount: nat, zero: T)
      requires elementCount > 0
      ensures Valid() && fresh(data) && data.Length == elementCount
      ensures Abs() == Tape(seq(elementCount, _ => zero), elementCount)
      ensures readPos == 0 && writePos == 0 && rwWrap == SameWrap
    {
      data := new T[elementCount](_ => zero);
      readPos, writePos, rwWrap := 0, 0, SameWrap;
    }

    method AvailableRead() returns (n: nat)
      requires Valid()
      ensures n == |Abs().Unread()|
    {
      if rwWrap == SameWrap {
        n := writePos - readPos;
      } else {
        n := data.Length - readPos + writePos;
      }
    }

    method AvailableWrite() returns (n: nat)
      requires Valid()
      ensures n == |Abs().History()|
    {
      var readable := AvailableRead();
      n := data.Length - readable;
    }

    method Write(xs: seq<T>) returns (written: nat)
      requires Valid()
      modifies this`writePos, this`rwWrap, data
      ensures Valid() && written == Min(old(Abs()).boundary, |xs|) && Abs() == old(Abs()).Write(xs)
      ensures var pos := old(writePos) + written;
        writePos == (if pos > data.Length then pos - data.Length else pos)
        && rwWrap == (if pos > data.Length then DiffWrap else old(rwWrap))
    {
      hide Rotation, Tape.Write;
      ghost var t := Abs();
      var freeElements := AvailableWrite();
      written := if freeElements < |xs| then freeElements else |xs|;
      WriteIs(t, xs, written);
      Store(xs[..written]);
    }

    /** Copies elements that fit to the write position, in two parts if they run past the end. */
    method Store(xs: seq<T>)
      requires Valid() && |xs| <= Abs().boundary
      modifies this`writePos, this`rwWrap, data
      ensures Valid() && Readable() == old(Readable()) + |xs|
      ensures var pos := old(writePos) + |xs|;
        writePos == (if pos > data.Length then pos - data.Length else pos)
        && rwWrap == (if pos > data.Length then DiffWrap else old(rwWrap))
      ensures Rotation(data[..], writePos) == old(Rotation(data[..], writePos))[|xs|..] + xs
    {
      hide Rotation, Patched;
      var n := |xs|;
      var margin := data.Length - writePos;
      ghost var d, w := data[..], writePos;
      if |xs| > margin {
        RotateWrapped(d, w, xs, margin);
        CopyInto(data, writePos, xs[..margin]);
        writePos := 0;
        n := n - margin;
        rwWrap := DiffWrap;
      } else {
        assert xs[0..] == xs;
        RotateStraight(d, w, xs);
      }
      CopyInto(data, writePos, xs[|xs| - n..]);
      writePos := writePos + n;
    }

    /** The positions fit an `int` all the way: the read position may reach the length plus the write
        position before it is wrapped. */
    predicate FitsInt(elementCount: int)
      requires Valid()
      reads this
    {
      data.Length <= INT_MAX && readPos + Min(elementCount, Readable()) <= INT_MAX
    }

    method MoveReadPtr(elementCount: int) returns (moved: int)
      requires Valid() && FitsInt(elementCount)
      modifies this`readPos, this`rwWrap
      ensures Valid() && moved == old(Abs()).Clamp(elementCount) && Abs() == old(Abs()).Move(elementCount)
      ensures var pos := old(readPos) + moved;
        readPos == (if pos > data.Length then pos - data.Length else if pos < 0 then pos + data.Length else pos)
        && rwWrap == (if pos > data.Length then SameWrap else if pos < 0 then DiffWrap else old(rwWrap))
    {
      var freeElements: int := AvailableWrite();
      var readableElements: int := AvailableRead();
      var pos: int := readPos;
      moved := elementCount;
      if moved > readableElements {
        moved := readableElements;
      }
      if moved < -freeElements {
        moved := -freeElements;
      }
      pos := pos + moved;
      if pos > data.Length {
        pos := pos - data.Length;
        rwWrap := SameWrap;
      }
      if pos < 0 {
        pos := pos + data.Length;
        rwWrap := DiffWrap;
      }
      readPos := pos;
    }

    /** The one or two regions that hold the next elements. */
    method GetBufferReadRegions(elementCount: nat) returns (pos1: nat, n1: nat, n2: nat)
      requires Valid()
      ensures n1 + n2 == Min(elementCount, |Abs().Unread()|) <= Readable()
      ensures pos1 + n1 <= data.Length && n2 <= data.Length
      ensures pos1 == readPos && (n2 > 0 ==> pos1 + n1 == data.Length)
      ensures data[pos1..pos1 + n1] + data[..n2] == Abs().Unread()[..n1 + n2]
    {
      hide Rotation;
      var readable := AvailableRead();
      var readElements := if readable < elementCount then readable else elementCount;
      var margin := data.Length - readPos;
      pos1 := readPos;
      if readElements > margin {
        n1, n2 := margin, readElements - margin;
      } else {
        n1, n2 := readElements, 0;
      }
      RegionsAreUnread(n1, n2);
    }

    lemma RegionsAreUnread(n1: nat, n2: nat)
      requires Valid() && n1 + n2 <= |Abs().Unread()| && readPos + n1 <= data.Length
      requires n2 > 0 ==> readPos + n1 == data.Length
      ensures n2 <= data.Length && Abs().Unread()[..n1 + n2] == data[readPos..readPos + n1] + data[..n2]
    {
    }

    /** Reads up to `elementCount` elements: in place where they are contiguous and a pointer was asked
        for, otherwise into the caller's memory. Either way they are the oldest unread ones. */
    method Read(elementCount: nat, wantPointer: bool, dest: array<T>)
      returns (readCount: nat, place: Place)
      requires Valid() && FitsInt(elementCount) && dest != data && elementCount <= dest.Length
      modifies this`readPos, this`rwWrap, dest
      ensures Valid() && readCount == Min(elementCount, |old(Abs()).Unread()|)
      ensures Abs() == old(Abs()).Move(readCount)
      ensures var pos := old(readPos) + readCount;
        readPos == (if pos > data.Length then pos - data.Length else pos)
        && rwWrap == (if pos > data.Length then SameWrap else old(rwWrap))
      ensures var xs := old(Abs()).Unread()[..readCount];
        (place.InBuffer? ==> place.pos + readCount <= data.Length && data[place.pos..place.pos + readCount] == xs)
        && (place.InData? ==> dest[..readCount] == xs)
        && (place.Nowhere? <==> wantPointer && readCount == 0)
        && (!wantPointer ==> place.InData?)
      ensures dest[readCount..] == old(dest[readCount..])
    {
      hide Tape.Move, Tape.Unread, Rotation;
      var pos1, n1, n2 := GetBufferReadRegions(elementCount);
      readCount := n1 + n2;
      place := CopyOut(pos1, n1, n2, wantPointer, dest);
      var moved := MoveReadPtr(readCount);
      assert moved == readCount;
    }

    /** Both regions into the caller's memory, if they are two or a copy is wanted. */
    method CopyOut(pos1: nat, n1: nat, n2: nat, wantPointer: bool, dest: array<T>) returns (place: Place)
      requires pos1 + n1 <= data.Length && n2 <= data.Length && n1 + n2 <= dest.Length && dest != data
      modifies dest
      ensures var xs := data[pos1..pos1 + n1] + data[..n2];
        (place.InBuffer? ==> place.pos + n1 + n2 <= data.Length && data[place.pos..place.pos + n1 + n2] == xs)
        && (place.InData? ==> dest[..n1 + n2] == xs)
      ensures place.Nowhere? <==> wantPointer && n1 + n2 == 0
      ensures !wantPointer ==> place.InData?
      ensures dest[n1 + n2..] == old(dest[n1 + n2..])
    {
      if n2 > 0 {
        CopyRegions(dest, data[pos1..pos1 + n1], data[..n2]);
        place := InData;
      } else if !wantPointer {
        CopyRegions(dest, data[pos1..pos1 + n1], []);
        place := InData;
      } else {
        place := if n1 + n2 == 0 then Nowhere else InBuffer(pos1);
      }
    }

    /** No move overflows while twice the capacity fits an `int`. */
    lemma HalfRangeFits(elementCount: int)
      requires Valid() && 2 * data.Length <= INT_MAX
      ensures FitsInt(elementCount)
    {
    }

    /** Above that, a full buffer whose read position has come to the end cannot be drained in one move:
        the read position overflows before it is wrapped. */
    lemma DrainOverflows()
      requires Valid() && data.Length <= INT_MAX && readPos == writePos == data.Length && rwWrap == DiffWrap
      ensures FitsInt(Readable()) <==> 2 * data.Length <= INT_MAX
    {
    }
  }

  /** How a buffer of `n` elements comes to that: write `n`, read them, write `n` more. Reading those, or
      moving past them, then overflows exactly when `2 * n` does. */
  method FullAtTheEnd<T(0)>(n: nat, zero: T, xs: seq<T>, ys: seq<T>) returns (b: RingBuffer<T>)
    requires 0 < n <= INT_MAX && |xs| == n && |ys| == n
    ensures b.Valid() && b.data.Length == n && b.Readable() == n
    ensures b.FitsInt(n) <==> 2 * n <= INT_MAX
  {
    hide Tape.Write, Tape.Move, Rotation;
    b := new RingBuffer<T>(n, zero);
    var dest := new T[n](_ => zero);
    var _ := b.Write(xs);
    var _, _ := b.Read(n, false, dest);
    var _ := b.Write(ys);
  }
}
