/** Intrusive reference counting as a transition system: any number of threads, handles (scoped_refptr
    variables) and objects. Each fetch_add, fetch_sub and delete is one step, and the threads' steps
    interleave freely. What a thread does to a handle that only it is using counts as one step. */
module RefCountSpec {

  datatype Ptr = Null | To(obj: nat)

  /** An object: its counter, whether it still exists, and how often a release reported the last
      reference dropped. */
  datatype Object = Object(count: int, alive: bool, dropped: nat)

  /** A handle variable. While an operation is under way it may point without owning a reference. */
  datatype Handle = Unused | Handle(ptr: Ptr, owns: bool)

  /** Where an operation got the object it is about to reference: newly made, or out of a handle. */
  datatype Source = Fresh | From(handle: nat)

  /** The operation a thread is in the middle of. */
  datatype Pc =
    | Idle
    | Copying(target: nat, source: Source, obj: nat)   // constructed, reference not yet added
    | Adding(target: nat, source: Source, obj: nat)    // assignment, reference not yet added
    | Releasing(target: nat, value: Ptr)               // added, old reference not yet released
    | DeletingOld(target: nat, value: Ptr, last: nat)   // that was the last one
    | Storing(target: nat, value: Ptr)                 // old one gone, pointer not yet stored
    | Deleting(last: nat)                               // outside any handle

  datatype State = State(objects: seq<Object>, handles: seq<Handle>, threads: seq<Pc>, raws: multiset<nat>)

  datatype Action =
    | MakeNull(h: nat)
    | MakeNew(h: nat)              // scoped_refptr h(new T)
    | CopyFrom(h: nat, r: nat)     // scoped_refptr h(r)
    | CopyAddRef
    | MoveFrom(h: nat, r: nat)     // scoped_refptr h(move(r))
    | Swap(h: nat, r: nat)
    | ReleaseRaw(h: nat)           // h.release()
    | AssignNull(h: nat)
    | AssignNew(h: nat)            // h = new T
    | AssignFrom(h: nat, r: nat)   // h = r
    | AssignAddRef
    | AssignRelease
    | AssignDelete
    | AssignStore
    | Destroy(h: nat)
    | DropRaw(obj: nat)            // Release() on a reference owned by hand
    | Delete

  // ---------- which handles an operation is using ----------

  predicate Targets(pc: Pc, h: nat) {
    match pc
    case Copying(t, _, _) => t == h
    case Adding(t, _, _) => t == h
    case Releasing(t, _) => t == h
    case DeletingOld(t, _, _) => t == h
    case Storing(t, _) => t == h
    case _ => false
  }

  predicate Reads(pc: Pc, h: nat) {
    (pc.Copying? || pc.Adding?) && pc.source == From(h)
  }

  /** No operation under way writes the handle, so it may be read. */
  predicate Readable(s: State, h: nat) {
    h < |s.handles| && s.handles[h].Handle? && forall t :: 0 <= t < |s.threads| ==> !Targets(s.threads[t], h)
  }

  /** No operation under way uses it at all, so it may be written. */
  predicate Writable(s: State, h: nat) {
    h < |s.handles| && forall t :: 0 <= t < |s.threads| ==> !Targets(s.threads[t], h) && !Reads(s.threads[t], h)
  }

  predicate Exclusive(s: State, h: nat) { Writable(s, h) && s.handles[h].Handle? }

  predicate Vacant(s: State, h: nat) { Writable(s, h) && s.handles[h].Unused? }

  predicate Enabled(s: State, t: nat, a: Action) {
    t < |s.threads|
    && var pc := s.threads[t];
      match a
      case CopyAddRef => pc.Copying?
      case AssignAddRef => pc.Adding?
      case AssignRelease => pc.Releasing?
      case AssignDelete => pc.DeletingOld?
      case AssignStore => pc.Storing?
      case Delete => pc.Deleting?
      case MakeNull(h) => pc.Idle? && Vacant(s, h)
      case MakeNew(h) => pc.Idle? && Vacant(s, h)
      case CopyFrom(h, r) => pc.Idle? && Vacant(s, h) && Readable(s, r)
      case MoveFrom(h, r) => pc.Idle? && Vacant(s, h) && Exclusive(s, r)
      case Swap(h, r) => pc.Idle? && Exclusive(s, h) && Exclusive(s, r)
      case ReleaseRaw(h) => pc.Idle? && Exclusive(s, h)
      case AssignNull(h) => pc.Idle? && Exclusive(s, h)
      case AssignNew(h) => pc.Idle? && Exclusive(s, h)
      case AssignFrom(h, r) => pc.Idle? && Exclusive(s, h) && Readable(s, r)
      case Destroy(h) => pc.Idle? && Exclusive(s, h)
      case DropRaw(o) => pc.Idle? && o in s.raws
  }

  // ---------- the steps ----------

  /** IncRef. */
  function Inc(objects: seq<Object>, o: nat): seq<Object>
    requires o < |objects|
  {
    objects[o := objects[o].(count := objects[o].count + 1)]
  }

  /** DecRef, which reports the last reference dropped when it brings the count to zero. */
  function Dec(objects: seq<Object>, o: nat): seq<Object>
    requires o < |objects|
  {
    var x := objects[o];
    objects[o := x.(count := x.count - 1, dropped := if x.count == 1 then x.dropped + 1 else x.dropped)]
  }

  predicate DropsLast(objects: seq<Object>, o: nat)
    requires o < |objects|
  {
    objects[o].count == 1
  }

  /** delete this. */
  function Kill(objects: seq<Object>, o: nat): seq<Object>
    requires o < |objects|
  {
    objects[o := objects[o].(alive := false)]
  }

  const NEW_OBJECT := Object(0, true, 0)

  function Owner(p: Ptr): Handle { Handle(p, p != Null) }

  /** All object and handle numbers in a state are in range. */
  predicate InRange(s: State) {
    (forall h :: 0 <= h < |s.handles| ==> HandleInRange(s, s.handles[h]))
    && (forall t :: 0 <= t < |s.threads| ==> PcInRange(s, s.threads[t]))
    && (forall o :: o in s.raws ==> o < |s.objects|)
  }

  predicate PtrInRange(s: State, p: Ptr) { p.To? ==> p.obj < |s.objects| }

  predicate HandleInRange(s: State, h: Handle) {
    h.Handle? ==> PtrInRange(s, h.ptr)
  }

  predicate UsedHandle(s: State, h: nat) { h < |s.handles| && s.handles[h].Handle? }

  predicate PcInRange(s: State, pc: Pc) {
    match pc
    case Idle => true
    case Copying(h, source, o) => UsedHandle(s, h) && o < |s.objects| && (source.From? ==> UsedHandle(s, source.handle))
    case Adding(h, source, o) => UsedHandle(s, h) && o < |s.objects| && (source.From? ==> UsedHandle(s, source.handle))
    case Releasing(h, value) => UsedHandle(s, h) && PtrInRange(s, value)
    case DeletingOld(h, value, o) => UsedHandle(s, h) && PtrInRange(s, value) && o < |s.objects|
    case Storing(h, value) => UsedHandle(s, h) && PtrInRange(s, value)
    case Deleting(o) => o < |s.objects|
  }

  function Step(s: State, t: nat, a: Action): State
    requires Enabled(s, t, a) && InRange(s)
  {
    var pc := s.threads[t];
    match a
    case MakeNull(h) => s.(handles := s.handles[h := Handle(Null, false)])
    case MakeNew(h) =>
      var o := |s.objects|;
      s.(objects := s.objects + [NEW_OBJECT], handles := s.handles[h := Handle(To(o), false)],
         threads := s.threads[t := Copying(h, Fresh, o)])
    case CopyFrom(h, r) =>
      var p := s.handles[r].ptr;
      s.(handles := s.handles[h := Handle(p, false)],
         threads := if p == Null then s.threads else s.threads[t := Copying(h, From(r), p.obj)])
    case CopyAddRef =>
      s.(objects := Inc(s.objects, pc.obj), handles := s.handles[pc.target := Handle(To(pc.obj), true)],
         threads := s.threads[t := Idle])
    case MoveFrom(h, r) =>
      s.(handles := s.handles[h := s.handles[r]][r := Handle(Null, false)])
    case Swap(h, r) =>
      s.(handles := s.handles[h := s.handles[r]][r := s.handles[h]])
    case ReleaseRaw(h) =>
      var p := s.handles[h].ptr;
      s.(handles := s.handles[h := Handle(Null, false)],
         raws := if p == Null then s.raws else s.raws + multiset{p.obj})
    case AssignNull(h) => s.(threads := s.threads[t := Releasing(h, Null)])
    case AssignNew(h) =>
      var o := |s.objects|;
      s.(objects := s.objects + [NEW_OBJECT], threads := s.threads[t := Adding(h, Fresh, o)])
    case AssignFrom(h, r) =>
      var p := s.handles[r].ptr;
      s.(threads := s.threads[t := if p == Null then Releasing(h, Null) else Adding(h, From(r), p.obj)])
    case AssignAddRef =>
      s.(objects := Inc(s.objects, pc.obj), threads := s.threads[t := Releasing(pc.target, To(pc.obj))])
    case AssignRelease =>
      var p := s.handles[pc.target].ptr;
      if p == Null then s.(threads := s.threads[t := Storing(pc.target, pc.value)])
      else
        s.(objects := Dec(s.objects, p.obj), handles := s.handles[pc.target := Handle(p, false)],
           threads := s.threads[t := if DropsLast(s.objects, p.obj) then DeletingOld(pc.target, pc.value, p.obj)
                                     else Storing(pc.target, pc.value)])
    case AssignDelete =>
      s.(objects := Kill(s.objects, pc.last), threads := s.threads[t := Storing(pc.target, pc.value)])
    case AssignStore =>
      s.(handles := s.handles[pc.target := Owner(pc.value)], threads := s.threads[t := Idle])
    case Destroy(h) =>
      var p := s.handles[h].ptr;
      if p == Null then s.(handles := s.handles[h := Unused])
      else
        s.(objects := Dec(s.objects, p.obj), handles := s.handles[h := Unused],
           threads := s.threads[t := if DropsLast(s.objects, p.obj) then Deleting(p.obj) else Idle])
    case DropRaw(o) =>
      s.(objects := Dec(s.objects, o), raws := s.raws - multiset{o},
         threads := s.threads[t := if DropsLast(s.objects, o) then Deleting(o) else Idle])
    case Delete =>
      s.(objects := Kill(s.objects, pc.last), threads := s.threads[t := Idle])
  }

  /** The object whose memory a step touches, if any. */
  function Touched(s: State, t: nat, a: Action): Ptr
    requires Enabled(s, t, a) && InRange(s)
  {
    var pc := s.threads[t];
    match a
    case CopyAddRef => To(pc.obj)
    case AssignAddRef => To(pc.obj)
    case AssignRelease => s.handles[pc.target].ptr
    case AssignDelete => To(pc.last)
    case Destroy(h) => s.handles[h].ptr
    case DropRaw(o) => To(o)
    case Delete => To(pc.last)
    case _ => Null
  }
}
