/** The growing buffer: its contents, the cost of its reallocations, and what its memory holds where it is
    not in use or no longer its own. */
module BufferT {

  /** One element of memory: never written, zeroed, or an item of the caller's. */
  datatype Cell<T> = Garbage | Zero | Item(value: T)

  function Items<T>(xs: seq<T>): (cells: seq<Cell<T>>)
    ensures |cells| == |xs|
  {
    seq(|xs|, i requires 0 <= i < |xs| => Item(xs[i]))
  }

  predicate NoItems<T>(cells: seq<Cell<T>>) {
    forall i :: 0 <= i < |cells| ==> !cells[i].Item?
  }

  predicate AllZero<T>(cells: seq<Cell<T>>) {
    forall i :: 0 <= i < |cells| ==> cells[i].Zero?
  }

  predicate AllFreedZero<T>(blocks: seq<seq<Cell<T>>>) {
    forall i :: 0 <= i < |blocks| ==> AllZero(blocks[i])
  }

  function Zeros<T>(n: nat): (cells: seq<Cell<T>>)
    ensures |cells| == n
  {
    seq(n, _ => Zero)
  }

  lemma UnusedTail<T>(cells: seq<Cell<T>>, k: nat)
    requires k <= |cells| && NoItems(cells)
    ensures NoItems(cells[k..])
  {
  }

  lemma UnusedZeroed<T>(n: nat, cells: seq<Cell<T>>)
    requires NoItems(cells)
    ensures NoItems(Zeros(n) + cells)
  {
  }

  function Max(a: nat, b: nat): nat { if a < b then b else a }

  /** The capacity after a request that does not fit. */
  function Grown(capacity: nat, request: nat, extraHeadroom: bool): nat {
    if extraHeadroom then Max(request, capacity + capacity / 2) else request
  }

  /** The capacity, the elements copied so far, and the first capacity or the largest one asked for since. */
  datatype Cost = Cost(capacity: nat, copied: nat, largest: nat) {
    predicate Paid() { copied <= 3 * capacity }
    predicate Bounded() { 2 * capacity <= 3 * largest }
  }

  /** What a request does when `size` elements are in the buffer. */
  function Request(c: Cost, size: nat, request: nat, extraHeadroom: bool): Cost {
    if request <= c.capacity then c.(largest := Max(c.largest, request))
    else Cost(Grown(c.capacity, request, extraHeadroom), c.copied + size, Max(c.largest, request))
  }

  function Requests(c: Cost, calls: seq<(nat, nat)>): Cost
    decreases |calls|
  {
    if calls == [] then c else Requests(Request(c, calls[0].0, calls[0].1, true), calls[1..])
  }

  /** No request is made with more elements than the capacity it finds. */
  predicate Possible(c: Cost, calls: seq<(nat, nat)>)
    decreases |calls|
  {
    calls == []
    || (calls[0].0 <= c.capacity && Possible(Request(c, calls[0].0, calls[0].1, true), calls[1..]))
  }

  /** Over any run of requests with headroom, copying stays within three times the capacity, and the capacity
      within three halves of the larger of the first one and the largest request. */
  lemma {:induction false} AmortisedGrowth(c: Cost, calls: seq<(nat, nat)>)
    requires c.Paid() && c.Bounded() && Possible(c, calls)
    ensures Requests(c, calls).Paid() && Requests(c, calls).Bounded()
    decreases |calls|
  {
    if calls != [] {
      AmortisedGrowth(Request(c, calls[0].0, calls[0].1, true), calls[1..]);
    }
  }

  /** `n` elements appended one at a time to an empty buffer. */
  function OneByOne(n: nat, extraHeadroom: bool): Cost {
    if n == 0 then Cost(0, 0, 0) else Request(OneByOne(n - 1, extraHeadroom), n - 1, n, extraHeadroom)
  }

  /** Without the headroom the same bound fails: every append copies everything. */
  lemma {:induction false} ExactGrowthIsQuadratic(n: nat)
    ensures OneByOne(n, false).capacity == n && 2 * OneByOne(n, false).copied == n * (n - 1)
  {
    if n > 0 {
      ExactGrowthIsQuadratic(n - 1);
      assert (n - 1) * (n - 2) + 2 * (n - 1) == n * (n - 1);
    }
  }

  class BufferT<T> {
    const zeroOnFree: bool
    var size: nat
    var capacity: nat
    var data: array?<Cell<T>>
    ghost var copied: nat           // elements copied by reallocations so far
    ghost var largest: nat          // the first capacity, or the largest one asked for since
    ghost var freed: seq<seq<Cell<T>>>  // the blocks handed back to the allocator, as they were

    /** IsConsistent; the block is as long as the capacity says, and what was handed back was zeroed. */
    ghost predicate Consistent()
      reads this, data
    {
      size <= capacity && (if data == null then capacity == 0 else data.Length == capacity > 0)
      && (zeroOnFree ==> AllFreedZero(freed)) && Growth().Bounded()
    }

    /** And the unused capacity holds none of the caller's data. */
    ghost predicate Valid()
      reads this, data
    {
      Consistent() && (zeroOnFree ==> NoItems(Unused()))
    }

    ghost function Growth(): Cost
      reads this
    {
      Cost(capacity, copied, largest)
    }

    ghost predicate Amortised()
      reads this
    {
      Growth().Paid()
    }

    ghost function Memory(): (m: seq<Cell<T>>)
      reads this, data
    {
      if data == null then [] else data[..]
    }

    ghost function Contents(): seq<Cell<T>>
      requires Consistent()
      reads this, data
    {
      Memory()[..size]
    }

    ghost function Unused(): seq<Cell<T>>
      requires Consistent()
      reads this, data
    {
      Memory()[size..]
    }

    constructor (zeroOnFree: bool, size: nat, capacity: nat)
      ensures Valid() && Amortised() && freed == [] && this.zeroOnFree == zeroOnFree
      ensures this.size == size && this.capacity == Max(size, capacity) == largest
      ensures NoItems(Contents()) && (data != null ==> fresh(data))
    {
      this.zeroOnFree := zeroOnFree;
      this.size := size;
      var c := Max(size, capacity);
      this.capacity := c;
      copied, largest, freed := 0, c, [];
      data := null;
      if c > 0 {
        data := new Cell<T>[c](_ => Garbage);
      }
    }

    /** ExplicitZeroMemory over part of the block. */
    method ZeroMemory(from: nat, count: nat)
      requires data != null && from + count <= data.Length
      modifies data
      ensures data[..] == old(data[..])[..from] + Zeros(count) + old(data[..])[from + count..]
    {
      forall i | from <= i < from + count { data[i] := Zero; }
    }

    method MaybeZeroCompleteBuffer()
      requires capacity == |Memory()|
      modifies data
      ensures if zeroOnFree then AllZero(Memory()) else Memory() == old(Memory())
      ensures |Memory()| == capacity
    {
      if zeroOnFree && capacity > 0 {
        ZeroMemory(0, capacity);
      }
    }

    method ZeroTrailingData(count: nat)
      requires size + count <= |Memory()|
      modifies data
      ensures Memory() == old(Memory())[..size] + Zeros(count) + old(Memory())[size + count..]
    {
      if data != null {
        ZeroMemory(size, count);
      }
    }

    /** A new block for the contents. */
    method Reallocate(newCapacity: nat)
      requires Consistent() && newCapacity > capacity && 2 * newCapacity <= 3 * largest
      modifies this`capacity, this`data, this`copied, this`freed, data
      ensures Consistent() && Contents() == old(Contents()) && capacity == newCapacity && NoItems(Unused())
      ensures fresh(data) && copied == old(copied) + size
    {
      hide AllFreedZero;
      var newData := new Cell<T>[newCapacity](_ => Garbage);
      if data != null {
        forall i | 0 <= i < size { newData[i] := data[i]; }
      }
      copied := copied + size;
      assert newData[..size] == Contents();
      assert NoItems(newData[size..]);
      MaybeZeroCompleteBuffer();
      FreedMore(freed, Memory());
      if data != null {
        freed := freed + [data[..]];
      }
      data := newData;
      capacity := newCapacity;
    }

    /** Reallocates if the request does not fit: the contents are copied, and the block handed back has been
        zeroed if it is to be. */
    method EnsureCapacityWithHeadroom(request: nat, extraHeadroom: bool)
      requires Consistent()
      modifies this`capacity, this`data, this`copied, this`largest, this`freed, data
      ensures Consistent() && Contents() == old(Contents()) && capacity >= request
      ensures data == old(data) || fresh(data)
      ensures old(capacity) >= request ==> Memory() == old(Memory()) && capacity == old(capacity) && data == old(data)
      ensures old(capacity) < request ==> NoItems(Unused())
      ensures Growth() == Request(old(Growth()), old(size), request, extraHeadroom)
      ensures extraHeadroom && old(Amortised()) ==> Amortised()
    {
      hide AllFreedZero, NoItems;
      largest := Max(largest, request);
      if request <= capacity {
        return;
      }
      var newCapacity := if extraHeadroom then Max(request, capacity + capacity / 2) else request;
      Reallocate(newCapacity);
    }

    method EnsureCapacity(request: nat)
      requires Valid()
      modifies this`capacity, this`data, this`copied, this`largest, this`freed, data
      ensures Valid() && Contents() == old(Contents()) && capacity == Max(old(capacity), request)
      ensures data == old(data) || fresh(data)
      ensures Growth() == Request(old(Growth()), old(size), request, false)
    {
      hide AllFreedZero, NoItems;
      EnsureCapacityWithHeadroom(request, false);
    }

    /** memcpy to an offset in the block. */
    method CopyIn(at: nat, xs: seq<T>)
      requires at + |xs| <= |Memory()|
      modifies data
      ensures Memory() == old(Memory())[..at] + Items(xs) + old(Memory())[at + |xs|..]
    {
      if data != null {
        forall i | 0 <= i < |xs| { data[at + i] := Item(xs[i]); }
      }
    }

    /** Puts elements at an offset and ends the contents behind them. */
    method Fill(at: nat, xs: seq<T>)
      requires Consistent() && at + |xs| <= capacity
      modifies this`size, data
      ensures Consistent() && size == at + |xs|
      ensures Contents() == old(Memory())[..at] + Items(xs)
      ensures Unused() == old(Memory())[at..][|xs|..]
      ensures NoItems(old(Memory())[at..]) ==> NoItems(Unused())
    {
      hide AllFreedZero, NoItems;
      ghost var m := Memory();
      CopyIn(at, xs);
      size := at + |xs|;
      assert Unused() == m[at..][|xs|..];
      if NoItems(m[at..]) {
        UnusedTail(m[at..], |xs|);
      }
    }

    method AppendData(xs: seq<T>)
      requires Consistent()
      modifies this, data
      ensures Consistent() && Contents() == old(Contents()) + Items(xs)
      ensures old(size) + |xs| <= old(capacity) ==> Unused() == old(Unused())[|xs|..] && capacity == old(capacity)
      ensures old(size) + |xs| > old(capacity) ==> NoItems(Unused()) && capacity > old(capacity)
      ensures old(Valid()) ==> Valid()
      ensures data == old(data) || fresh(data)
      ensures Growth() == Request(old(Growth()), old(size), old(size) + |xs|, true)
      ensures old(Amortised()) ==> Amortised()
    {
      hide AllFreedZero, NoItems, Request, Cost.Bounded, Cost.Paid, Items;
      var newSize := size + |xs|;
      EnsureCapacityWithHeadroom(newSize, true);
      Fill(size, xs);
    }

    method SetData(xs: seq<T>)
      requires Valid()
      modifies this, data
      ensures Valid() && Contents() == Items(xs)
      ensures data == old(data) || fresh(data)
      ensures Growth() == Request(old(Growth()), 0, |xs|, true)
      ensures old(Amortised()) ==> Amortised()
    {
      hide AllFreedZero, NoItems;
      ghost var m := Memory();
      var oldSize := size;
      size := 0;
      AppendData(xs);
      assert [] + Items(xs) == Items(xs);
      FinishSetting(oldSize, m);
    }

    /** Trailing data of the contents that have been replaced is zeroed. */
    method FinishSetting(oldSize: nat, ghost m: seq<Cell<T>>)
      requires Consistent() && oldSize <= |m| <= capacity && (zeroOnFree ==> NoItems(m[oldSize..]))
      requires (size <= |m| == capacity && Unused() == m[size..]) || NoItems(Unused())
      modifies data
      ensures Valid() && Contents() == old(Contents())
    {
      hide AllFreedZero, NoItems;
      if zeroOnFree && size < oldSize {
        ghost var u := Unused();
        if NoItems(u) {
          UnusedTail(u, oldSize - size);
        } else {
          assert u[oldSize - size..] == m[oldSize..];
        }
        ZeroTrailing(oldSize - size, u[oldSize - size..]);
      } else if zeroOnFree && size <= |m| {
        UnusedTail(m[oldSize..], size - oldSize);
        assert m[oldSize..][size - oldSize..] == m[size..];
      }
    }

    method SetSize(newSize: nat)
      requires Consistent()
      modifies this, data
      ensures Consistent() && size == newSize
      ensures newSize <= old(size) ==> Contents() == old(Contents())[..newSize]
      ensures newSize > old(size) ==> Contents()[..old(size)] == old(Contents())
      ensures old(size) <= newSize <= old(capacity) ==> Memory() == old(Memory()) && capacity == old(capacity)
      ensures newSize > old(capacity) ==> NoItems(Memory()[old(size)..]) && capacity > old(capacity)
      ensures old(Valid()) ==> Valid() && (zeroOnFree && newSize > old(size) ==> NoItems(Contents()[old(size)..]))
      ensures data == old(data) || fresh(data)
      ensures Growth() == Request(old(Growth()), old(size), newSize, true)
      ensures old(Amortised()) ==> Amortised()
    {
      hide AllFreedZero, NoItems, Request;
      var oldSize := size;
      EnsureCapacityWithHeadroom(newSize, true);
      Resized(Memory(), oldSize, newSize);
      ghost var rest := Unused();
      size := newSize;
      if zeroOnFree && size < oldSize {
        ZeroTrailing(oldSize - size, rest);
      }
    }

    /** Zeroing what the contents used to reach leaves only unused memory behind them. */
    method ZeroTrailing(count: nat, ghost rest: seq<Cell<T>>)
      requires Consistent() && size + count <= capacity && Unused()[count..] == rest
      modifies data
      ensures Consistent() && Contents() == old(Contents()) && (NoItems(rest) ==> NoItems(Unused()))
    {
      hide AllFreedZero, NoItems;
      TrailZeroed(Memory(), size, count);
      ZeroTrailingData(count);
    }

    /** The setter puts `written` at the beginning of the space it is given and leaves the rest alone. */
    method AppendWith(maxElements: nat, written: seq<T>)
      requires Consistent() && |written| <= maxElements
      modifies this, data
      ensures Consistent() && Contents() == old(Contents()) + Items(written)
      ensures old(size) + maxElements <= old(capacity) ==>
        Unused() == old(Unused())[|written|..] && capacity == old(capacity)
      ensures old(size) + maxElements > old(capacity) ==> NoItems(Unused()) && capacity > old(capacity)
      ensures old(Valid()) ==> Valid()
      ensures data == old(data) || fresh(data)
      ensures Growth() == Request(old(Growth()), old(size), old(size) + maxElements, true)
      ensures old(Amortised()) ==> Amortised()
    {
      hide AllFreedZero, NoItems, Request, Cost.Bounded, Cost.Paid, Items;
      var oldSize := size;
      SetSize(oldSize + maxElements);
      Resized(Memory(), oldSize, oldSize + maxElements);
      Fill(oldSize, written);
    }

    method SetWith(maxElements: nat, written: seq<T>)
      requires Valid() && |written| <= maxElements
      modifies this, data
      ensures Valid() && Contents() == Items(written)
      ensures data == old(data) || fresh(data)
      ensures Growth() == Request(old(Growth()), 0, maxElements, true)
      ensures old(Amortised()) ==> Amortised()
    {
      hide AllFreedZero, NoItems;
      ghost var m := Memory();
      var oldSize := size;
      size := 0;
      AppendWith(maxElements, written);
      assert [] + Items(written) == Items(written);
      FinishSetting(oldSize, m);
    }

    method Clear()
      requires Valid()
      modifies this`size, data
      ensures Valid() && Contents() == [] && capacity == old(capacity)
      ensures zeroOnFree ==> AllZero(Memory())
    {
      hide AllFreedZero;
      MaybeZeroCompleteBuffer();
      size := 0;
    }

    /** The destructor: the block goes back to the allocator, zeroed if it is to be. */
    method Destroy()
      requires Consistent()
      modifies this`freed, data
      ensures freed == old(freed) + (if data == null then [] else [Memory()])
      ensures zeroOnFree ==> AllFreedZero(freed)
    {
      hide AllFreedZero;
      MaybeZeroCompleteBuffer();
      FreedMore(freed, Memory());
      if data != null {
        freed := freed + [data[..]];
      }
    }

    /** Takes over the other buffer's block and hands back its own, zeroed if it is to be. Moving a buffer into
        itself hands back the only block and leaves it empty. */
    method MoveFrom(buf: BufferT<T>)
      requires Valid() && buf.Valid() && zeroOnFree == buf.zeroOnFree
      requires buf != this && data != null ==> data != buf.data
      modifies this, buf, data
      ensures Valid() && buf.Valid() && buf.size == 0 && buf.capacity == 0
      ensures buf != this ==> Contents() == old(buf.Contents()) && data == old(buf.data)
      ensures buf != this ==> capacity == old(buf.capacity)
      ensures buf == this ==> Contents() == []
      ensures old(buf.Amortised()) ==> Amortised()
      ensures |freed| == |old(freed)| + (if old(data) == null then 0 else 1)
    {
      hide AllFreedZero, AllZero, NoItems, Cost.Bounded;
      ghost var theirs := buf.Memory();
      MaybeZeroCompleteBuffer();
      size := buf.size;
      capacity := buf.capacity;
      copied, largest := buf.copied, buf.largest;
      var block := buf.data;
      buf.data := data;
      data := block;
      // buf.data_.reset(), then OnMovedFrom
      FreedMore(freed, buf.Memory());
      if buf.data != null {
        freed := freed + [buf.data[..]];
      }
      buf.OnMovedFrom();
      assert buf != this ==> Memory() == theirs;
    }

    /** A moved-from buffer is empty. */
    method OnMovedFrom()
      requires zeroOnFree ==> AllFreedZero(freed)
      modifies this`size, this`capacity, this`data, this`copied, this`largest
      ensures Valid() && size == 0 && capacity == 0 && data == null && Amortised()
    {
      data := null;
      size, capacity, copied, largest := 0, 0, 0, 0;
    }
  }

  lemma TrailZeroed<T>(m: seq<Cell<T>>, k: nat, count: nat)
    requires k + count <= |m|
    ensures var m' := m[..k] + Zeros(count) + m[k + count..];
      m'[..k] == m[..k] && (NoItems(m[k..][count..]) ==> NoItems(m'[k..]))
  {
  }

  /** Moving the boundary between contents and unused memory. */
  lemma Resized<T>(m: seq<Cell<T>>, k: nat, n: nat)
    requires k <= |m| && n <= |m|
    ensures n <= k ==> m[..n] == m[..k][..n] && m[n..][k - n..] == m[k..]
    ensures n > k ==> m[..n][..k] == m[..k] && (NoItems(m[k..]) ==> NoItems(m[..n][k..]) && NoItems(m[n..]))
  {
    if n > k {
      assert m[n..] == m[k..][n - k..] && m[..n][k..] == m[k..][..n - k];
    }
  }

  lemma FreedMore<T>(blocks: seq<seq<Cell<T>>>, block: seq<Cell<T>>)
    ensures AllFreedZero(blocks) && AllZero(block) ==> AllFreedZero(blocks + [block])
  {
  }
}
