/** The handle and the counted object as one thread runs them, statement by statement. An object that has
    been deleted must not be touched: every method that touches one asks for it to be alive. */
module ScopedRefptr {

  datatype RefCountReleaseStatus = DroppedLastRef | OtherRefsRemained

  /** RefCountedBase with its RefCounter. */
  class RefCounted {
    var refCount: int
    ghost var alive: bool

    constructor ()
      ensures refCount == 0 && alive
    {
      refCount, alive := 0, true;
    }

    method IncRef()
      requires alive
      modifies this`refCount
      ensures refCount == old(refCount) + 1
    {
      refCount := refCount + 1;
    }

    method DecRef() returns (status: RefCountReleaseStatus)
      requires alive
      modifies this`refCount
      ensures refCount == old(refCount) - 1
      ensures status == DroppedLastRef <==> refCount == 0
    {
      refCount := refCount - 1;
      status := if refCount == 0 then DroppedLastRef else OtherRefsRemained;
    }

    method HasOneRef() returns (one: bool)
      requires alive
      ensures one <==> refCount == 1
    {
      one := refCount == 1;
    }

    method AddRef()
      requires alive
      modifies this`refCount
      ensures refCount == old(refCount) + 1
    {
      IncRef();
    }

    /** Deletes the object on the last reference. */
    method Release() returns (status: RefCountReleaseStatus)
      requires alive && refCount >= 1
      modifies this
      ensures refCount == old(refCount) - 1
      ensures alive <==> refCount > 0
      ensures status == DroppedLastRef <==> !alive
    {
      status := DecRef();
      if status == DroppedLastRef {
        alive := false;
      }
    }
  }

  /** An object that a pointer may be set to, and one that a handle refers to. */
  ghost predicate Live(p: RefCounted?)
    reads p
  {
    p != null ==> p.alive && p.refCount >= 0
  }

  ghost predicate Held(p: RefCounted?)
    reads p
  {
    p != null ==> p.alive && p.refCount >= 1
  }

  class ScopedRefptr {
    var ptr: RefCounted?

    constructor ()
      ensures ptr == null
    {
      ptr := null;
    }

    constructor FromRaw(p: RefCounted?)
      requires Live(p)
      modifies p
      ensures ptr == p && Held(p)
      ensures p != null ==> p.refCount == old(p.refCount) + 1
    {
      ptr := p;
      new;
      if ptr != null {
        ptr.AddRef();
      }
    }

    constructor Copy(r: ScopedRefptr)
      requires Held(r.ptr)
      modifies r.ptr
      ensures ptr == r.ptr == old(r.ptr) && Held(ptr)
      ensures ptr != null ==> ptr.refCount == old(r.ptr.refCount) + 1
    {
      ptr := r.ptr;
      new;
      if ptr != null {
        ptr.AddRef();
      }
    }

    /** The reference changes hands: no count is touched. */
    constructor Move(r: ScopedRefptr)
      modifies r
      ensures ptr == old(r.ptr) && r.ptr == null
    {
      new;
      var p := r.ReleasePtr();
      ptr := p;
    }

    method ReleasePtr() returns (retVal: RefCounted?)
      modifies this
      ensures retVal == old(ptr) && ptr == null
    {
      retVal := ptr;
      ptr := null;
    }

    /** The destructor. */
    method Destroy()
      requires Held(ptr)
      modifies ptr
      ensures ptr != null ==> ptr.refCount == old(ptr.refCount) - 1 && (ptr.alive <==> old(ptr.refCount) > 1)
    {
      if ptr != null {
        var _ := ptr.Release();
      }
    }

    /** Adds the new reference before it drops the old one, so that assigning a handle its own object, even
        through its only reference, changes nothing. */
    method AssignRaw(p: RefCounted?)
      requires Live(p) && Held(ptr)
      modifies this, p, ptr
      ensures ptr == p && Held(p)
      ensures p == old(ptr) && p != null ==> p.refCount == old(p.refCount)
      ensures p != old(ptr) && p != null ==> p.refCount == old(p.refCount) + 1
      ensures var was := old(ptr);
        p != was && was != null ==>
          was.refCount == old(ptr.refCount) - 1 && (was.alive <==> old(ptr.refCount) > 1)
    {
      if p != null {
        p.AddRef();
      }
      if ptr != null {
        var _ := ptr.Release();
      }
      ptr := p;
    }

    method Assign(r: ScopedRefptr)
      requires Held(r.ptr) && Held(ptr)
      modifies this, r.ptr, ptr
      ensures ptr == old(r.ptr) && Held(ptr) && (r != this ==> r.ptr == old(r.ptr))
      ensures old(r.ptr == ptr) && ptr != null ==> ptr.refCount == old(ptr.refCount)
      ensures old(r.ptr != ptr) && ptr != null ==> ptr.refCount == old(r.ptr.refCount) + 1
      ensures var was := old(ptr);
        ptr != was && was != null ==>
          was.refCount == old(ptr.refCount) - 1 && (was.alive <==> old(ptr.refCount) > 1)
    {
      AssignRaw(r.ptr);
    }

    method SwapWith(r: ScopedRefptr)
      modifies this, r
      ensures ptr == old(r.ptr) && r.ptr == old(ptr)
    {
      var p := ptr;
      ptr := r.ptr;
      r.ptr := p;
    }

    /** Through a temporary that takes over the old reference and drops it; moving a handle into itself
        changes nothing. */
    method MoveAssign(r: ScopedRefptr)
      requires Held(r.ptr) && Held(ptr)
      requires r != this && ptr != null && ptr == r.ptr ==> ptr.refCount >= 2  // two handles, two references
      modifies this, r, ptr
      ensures ptr == old(r.ptr) && Held(ptr) && (r != this ==> r.ptr == null)
      ensures r == this && ptr != null ==> ptr.refCount == old(ptr.refCount)
      ensures var was := old(ptr);
        r != this && was != null ==>
          was.refCount == old(ptr.refCount) - 1 && (was.alive <==> old(ptr.refCount) > 1)
      ensures r != this && ptr != null && ptr != old(ptr) ==> ptr.refCount == old(r.ptr.refCount)
    {
      var temp := new ScopedRefptr.Move(r);
      temp.SwapWith(this);
      temp.Destroy();
    }
  }
}
