/** What every interleaving of handle operations keeps: counts are references, the last reference is
    dropped once, and no step touches a deleted object. */
module RefCountProof {
  import opened RefCountSpec

  // ---------- sums over handles and threads ----------

  function Sum<X>(s: seq<X>, w: X -> nat): nat {
    if s == [] then 0 else Sum(s[..|s| - 1], w) + w(s[|s| - 1])
  }

  lemma {:induction false} SumUpdate<X>(s: seq<X>, w: X -> nat, i: nat, x: X)
    requires i < |s|
    ensures Sum(s[i := x], w) + w(s[i]) == Sum(s, w) + w(x)
    decreases |s|
  {
    var n := |s| - 1;
    if i == n {
      assert s[i := x][..n] == s[..n];
    } else {
      SumUpdate(s[..n], w, i, x);
      assert s[i := x][..n] == s[..n][i := x];
    }
  }

  lemma {:induction false} SumAtLeast<X>(s: seq<X>, w: X -> nat, i: nat)
    requires i < |s|
    ensures Sum(s, w) >= w(s[i])
    decreases |s|
  {
    var n := |s| - 1;
    if i < n {
      SumAtLeast(s[..n], w, i);
    }
  }

  lemma {:induction false} SumTwo<X>(s: seq<X>, w: X -> nat, i: nat, j: nat)
    requires i < j < |s|
    ensures Sum(s, w) >= w(s[i]) + w(s[j])
    decreases |s|
  {
    var n := |s| - 1;
    if j < n {
      SumTwo(s[..n], w, i, j);
    } else {
      SumAtLeast(s[..n], w, i);
    }
  }

  lemma {:induction false} SumZero<X>(s: seq<X>, w: X -> nat)
    requires forall i :: 0 <= i < |s| ==> w(s[i]) == 0
    ensures Sum(s, w) == 0
    decreases |s|
  {
    if s != [] {
      SumZero(s[..|s| - 1], w);
    }
  }

  // ---------- who holds references ----------

  function One(b: bool): nat { if b then 1 else 0 }

  /** A handle that owns a reference to the object. */
  function Owns(o: nat): Handle -> nat { (h: Handle) => One(h.Handle? && h.owns && h.ptr == To(o)) }

  /** An assignment that has added a reference and not yet stored it. */
  function Carries(o: nat): Pc -> nat {
    (pc: Pc) => One((pc.Releasing? || pc.DeletingOld? || pc.Storing?) && pc.value == To(o))
  }

  /** A thread about to delete the object. */
  function Dooms(o: nat): Pc -> nat { (pc: Pc) => One((pc.DeletingOld? || pc.Deleting?) && pc.last == o) }

  /** A thread about to take the first reference to an object it has made. */
  function Bears(o: nat): Pc -> nat {
    (pc: Pc) => One((pc.Copying? || pc.Adding?) && pc.source == Fresh && pc.obj == o)
  }

  function References(s: State, o: nat): nat {
    Sum(s.handles, Owns(o)) + Sum(s.threads, Carries(o)) + s.raws[o]
  }

  /** An object's life: born without references, referenced, and after its last reference is dropped, once,
      deleted by the thread that dropped it. */
  predicate ObjectOk(s: State, o: nat)
    requires o < |s.objects|
  {
    var x, doomed, born := s.objects[o], Sum(s.threads, Dooms(o)), Sum(s.threads, Bears(o));
    x.count == References(s, o)
    && if x.dropped == 0 then x.alive && doomed == 0 && (if born == 0 then x.count > 0 else born == 1 && x.count == 0)
       else x.dropped == 1 && x.count == 0 && born == 0 && doomed == One(x.alive)
  }

  // ---------- the state of the operations under way ----------

  predicate Settled(h: Handle) { h.Handle? && h.owns == (h.ptr != Null) }

  predicate Lends(s: State, source: Source, o: nat) {
    source.From? ==> source.handle < |s.handles| && s.handles[source.handle] == Handle(To(o), true)
  }

  predicate PcOk(s: State, pc: Pc) {
    PcInRange(s, pc)
    && match pc
       case Copying(h, source, o) =>
         s.handles[h] == Handle(To(o), false) && source != From(h) && Lends(s, source, o)
       case Adding(h, source, o) => Settled(s.handles[h]) && Lends(s, source, o)
       case Releasing(h, _) => Settled(s.handles[h])
       case DeletingOld(h, _, _) => !s.handles[h].owns
       case Storing(h, _) => !s.handles[h].owns
       case _ => true
  }

  /** What one operation writes, another neither writes nor reads. */
  ghost predicate Apart(p: Pc, q: Pc) {
    forall h :: Targets(p, h) ==> !Targets(q, h) && !Reads(q, h)
  }

  predicate Quiet(s: State, h: nat)
    requires h < |s.handles|
  {
    s.handles[h].Unused? || Settled(s.handles[h])
  }

  /** No thread but `t` writes the handle; none but `t` uses it at all. */
  ghost predicate UnwrittenBut(s: State, t: nat, h: nat) {
    forall u :: 0 <= u < |s.threads| && u != t ==> !Targets(s.threads[u], h)
  }

  ghost predicate UnusedBut(s: State, t: nat, h: nat) {
    UnwrittenBut(s, t, h) && forall u :: 0 <= u < |s.threads| && u != t ==> !Reads(s.threads[u], h)
  }

  ghost predicate Untargeted(s: State, h: nat) {
    forall t :: 0 <= t < |s.threads| ==> !Targets(s.threads[t], h)
  }

  ghost predicate ThreadsOk(s: State) {
    (forall t :: 0 <= t < |s.threads| ==> PcOk(s, s.threads[t]))
    && (forall t, u :: 0 <= t < |s.threads| && 0 <= u < |s.threads| && t != u ==> Apart(s.threads[t], s.threads[u]))
  }

  ghost predicate HandlesOk(s: State) {
    forall h :: 0 <= h < |s.handles| && Untargeted(s, h) ==> Quiet(s, h)
  }

  ghost predicate Orderly(s: State) { InRange(s) && ThreadsOk(s) && HandlesOk(s) }

  ghost predicate Inv(s: State) {
    Orderly(s) && forall o :: 0 <= o < |s.objects| ==> ObjectOk(s, o)
  }

  // ---------- one step keeps the operations in order ----------

  /** `t` makes a step that writes at most the handles in `w`, which no other operation uses. */
  ghost predicate Local(s: State, s': State, t: nat, w: set<nat>) {
    t < |s.threads| && |s'.handles| == |s.handles| && |s.objects| <= |s'.objects|
    && |s'.threads| == |s.threads| && s'.threads == s.threads[t := s'.threads[t]]
    && (forall h :: 0 <= h < |s.handles| && h !in w ==> s'.handles[h] == s.handles[h])
    && (forall h :: h in w ==> h < |s.handles| && UnusedBut(s, t, h) && HandleInRange(s', s'.handles[h]))
    && (forall o :: o in s'.raws ==> o < |s'.objects|)
  }

  /** Its new place in an operation suits the handles, and a handle it lets go of is left settled. */
  ghost predicate Fitting(s: State, s': State, t: nat, w: set<nat>)
    requires Local(s, s', t, w)
  {
    var pc, pc' := s.threads[t], s'.threads[t];
    PcOk(s', pc')
    && (forall h :: Targets(pc', h) ==> UnusedBut(s, t, h))
    && (forall h :: Reads(pc', h) ==> UnwrittenBut(s, t, h))
    && (forall h :: 0 <= h < |s.handles| && (h in w || Targets(pc, h)) && !Targets(pc', h) ==> Quiet(s', h))
  }

  lemma PcFrame(s: State, s': State, pc: Pc)
    requires PcOk(s, pc) && |s'.handles| == |s.handles| && |s.objects| <= |s'.objects|
    requires forall h :: 0 <= h < |s.handles| && (Targets(pc, h) || Reads(pc, h)) ==> s'.handles[h] == s.handles[h]
    ensures PcOk(s', pc)
  {
    match pc {
      case Idle =>
      case Deleting(_) =>
      case Copying(h, source, _) =>
        assert Targets(pc, h);
        if source.From? { assert Reads(pc, source.handle); }
      case Adding(h, source, _) =>
        assert Targets(pc, h);
        if source.From? { assert Reads(pc, source.handle); }
      case Releasing(h, _) => assert Targets(pc, h);
      case DeletingOld(h, _, _) => assert Targets(pc, h);
      case Storing(h, _) => assert Targets(pc, h);
    }
  }

  lemma OrderlyStep(s: State, s': State, t: nat, w: set<nat>)
    requires Orderly(s) && Local(s, s', t, w) && Fitting(s, s', t, w)
    ensures Orderly(s')
  {
    hide Targets, Reads, Quiet, HandleInRange;
    ThreadsStep(s, s', t, w);
    HandlesStep(s, s', t, w);
    RangeStep(s, s', t, w);
  }

  lemma RangeStep(s: State, s': State, t: nat, w: set<nat>)
    requires Orderly(s) && Local(s, s', t, w) && ThreadsOk(s')
    ensures InRange(s')
  {
    hide Targets, Reads, UnusedBut, Quiet;
    forall h | 0 <= h < |s'.handles| ensures HandleInRange(s', s'.handles[h]) {
      if h !in w {
        assert HandleInRange(s, s.handles[h]);
      }
    }
    forall u | 0 <= u < |s'.threads| ensures PcInRange(s', s'.threads[u]) {
      assert PcOk(s', s'.threads[u]);
    }
  }

  lemma ThreadsStep(s: State, s': State, t: nat, w: set<nat>)
    requires Orderly(s) && Local(s, s', t, w) && Fitting(s, s', t, w)
    ensures ThreadsOk(s')
  {
    hide Targets, Reads, Quiet, HandleInRange, InRange, HandlesOk, PcOk;
    forall u | 0 <= u < |s.threads| && u != t ensures PcOk(s', s'.threads[u]) {
      PcFrame(s, s', s.threads[u]);
    }
    forall u, v | 0 <= u < |s.threads| && 0 <= v < |s.threads| && u != v
      ensures Apart(s'.threads[u], s'.threads[v])
    {
      if u != t && v != t {
        assert Apart(s.threads[u], s.threads[v]);
      }
    }
  }

  lemma HandlesStep(s: State, s': State, t: nat, w: set<nat>)
    requires Orderly(s) && Local(s, s', t, w) && Fitting(s, s', t, w)
    ensures HandlesOk(s')
  {
    hide Targets, Reads, HandleInRange, InRange, PcOk, Apart;
    forall h | 0 <= h < |s'.handles| && Untargeted(s', h) ensures Quiet(s', h) {
      assert !Targets(s'.threads[t], h);
      if h !in w && !Targets(s.threads[t], h) {
        assert Untargeted(s, h) by {
          forall u | 0 <= u < |s.threads| ensures !Targets(s.threads[u], h) {
            assert u != t ==> !Targets(s'.threads[u], h);
          }
        }
        assert Quiet(s, h);
      }
    }
  }

  lemma OwnTarget(s: State, t: nat, h: nat)
    requires ThreadsOk(s) && t < |s.threads| && Targets(s.threads[t], h)
    ensures UnusedBut(s, t, h)
  {
    hide Targets, Reads, PcOk;
    forall u | 0 <= u < |s.threads| && u != t ensures !Targets(s.threads[u], h) && !Reads(s.threads[u], h) {
      assert Apart(s.threads[t], s.threads[u]);
    }
  }

  lemma WritableUnused(s: State, t: nat, h: nat)
    requires Writable(s, h)
    ensures h < |s.handles| && UnusedBut(s, t, h) && Untargeted(s, h)
  {
  }

  lemma ReadableSettled(s: State, t: nat, h: nat)
    requires HandlesOk(s) && Readable(s, h)
    ensures h < |s.handles| && UnwrittenBut(s, t, h) && Settled(s.handles[h])
  {
    assert Untargeted(s, h);
    assert Quiet(s, h);
  }

  lemma ExclusiveSettled(s: State, t: nat, h: nat)
    requires HandlesOk(s) && Exclusive(s, h)
    ensures h < |s.handles| && UnusedBut(s, t, h) && Settled(s.handles[h])
  {
    WritableUnused(s, t, h);
    assert Quiet(s, h);
  }

  /** Operations that begin on, or consist of, a vacant handle. */
  lemma ConstructOrderly(s: State, t: nat, a: Action)
    requires Orderly(s) && Enabled(s, t, a) && (a.MakeNull? || a.MakeNew? || a.CopyFrom? || a.MoveFrom?)
    ensures Orderly(Step(s, t, a))
  {
    hide UnusedBut, UnwrittenBut, Writable, Readable;
    var s' := Step(s, t, a);
    assert forall h :: 0 <= h < |s.handles| ==> HandleInRange(s, s.handles[h]);
    WritableUnused(s, t, a.h);
    if a.MoveFrom? {
      ExclusiveSettled(s, t, a.r);
      OrderlyStep(s, s', t, {a.h, a.r});
    } else {
      if a.CopyFrom? {
        ReadableSettled(s, t, a.r);
      }
      OrderlyStep(s, s', t, {a.h});
    }
  }

  /** Operations that begin on, or consist of, a handle in use. */
  lemma ModifyOrderly(s: State, t: nat, a: Action)
    requires Orderly(s) && Enabled(s, t, a) && (a.Swap? || a.ReleaseRaw? || a.Destroy?)
    ensures Orderly(Step(s, t, a))
  {
    hide UnusedBut, UnwrittenBut, Writable, Readable;
    var s' := Step(s, t, a);
    assert forall h :: 0 <= h < |s.handles| ==> HandleInRange(s, s.handles[h]);
    ExclusiveSettled(s, t, a.h);
    if a.Swap? {
      ExclusiveSettled(s, t, a.r);
      OrderlyStep(s, s', t, {a.h, a.r});
    } else {
      OrderlyStep(s, s', t, {a.h});
    }
  }

  lemma AssignOrderly(s: State, t: nat, a: Action)
    requires Orderly(s) && Enabled(s, t, a) && (a.AssignNull? || a.AssignNew? || a.AssignFrom?)
    ensures Orderly(Step(s, t, a))
  {
    hide UnusedBut, UnwrittenBut, Writable, Readable;
    var s' := Step(s, t, a);
    assert forall h :: 0 <= h < |s.handles| ==> HandleInRange(s, s.handles[h]);
    ExclusiveSettled(s, t, a.h);
    if a.AssignFrom? {
      ReadableSettled(s, t, a.r);
    }
    OrderlyStep(s, s', t, {});
  }

  /** The later steps of an operation. */
  lemma ContinueOrderly(s: State, t: nat, a: Action)
    requires Orderly(s) && Enabled(s, t, a)
    requires a.CopyAddRef? || a.AssignAddRef? || a.AssignRelease? || a.AssignDelete? || a.AssignStore?
    ensures Orderly(Step(s, t, a))
  {
    hide UnusedBut, UnwrittenBut;
    var s', pc := Step(s, t, a), s.threads[t];
    assert forall h :: 0 <= h < |s.handles| ==> HandleInRange(s, s.handles[h]);
    assert PcOk(s, pc);
    OwnTarget(s, t, pc.target);
    OrderlyStep(s, s', t, if a.AssignAddRef? || a.AssignDelete? then {} else {pc.target});
  }

  lemma DropOrderly(s: State, t: nat, a: Action)
    requires Orderly(s) && Enabled(s, t, a) && (a.DropRaw? || a.Delete?)
    ensures Orderly(Step(s, t, a))
  {
    OrderlyStep(s, Step(s, t, a), t, {});
  }

  lemma StepOrderly(s: State, t: nat, a: Action)
    requires Orderly(s) && Enabled(s, t, a)
    ensures Orderly(Step(s, t, a))
  {
    hide Orderly, Step, Enabled;
    if a.MakeNull? || a.MakeNew? || a.CopyFrom? || a.MoveFrom? {
      ConstructOrderly(s, t, a);
    } else if a.Swap? || a.ReleaseRaw? || a.Destroy? {
      ModifyOrderly(s, t, a);
    } else if a.AssignNull? || a.AssignNew? || a.AssignFrom? {
      AssignOrderly(s, t, a);
    } else if a.DropRaw? || a.Delete? {
      DropOrderly(s, t, a);
    } else {
      ContinueOrderly(s, t, a);
    }
  }

  // ---------- one step keeps every object's count ----------

  /** How the sums move when one thread's place changes. */
  lemma ThreadSums(s: State, s': State, t: nat, o: nat)
    requires t < |s.threads| == |s'.threads| && s'.threads == s.threads[t := s'.threads[t]]
    ensures Sum(s'.threads, Carries(o)) + Carries(o)(s.threads[t])
         == Sum(s.threads, Carries(o)) + Carries(o)(s'.threads[t])
    ensures Sum(s'.threads, Dooms(o)) + Dooms(o)(s.threads[t])
         == Sum(s.threads, Dooms(o)) + Dooms(o)(s'.threads[t])
    ensures Sum(s'.threads, Bears(o)) + Bears(o)(s.threads[t])
         == Sum(s.threads, Bears(o)) + Bears(o)(s'.threads[t])
    ensures Sum(s.threads, Dooms(o)) >= Dooms(o)(s.threads[t])
    ensures Sum(s.threads, Bears(o)) >= Bears(o)(s.threads[t])
    ensures Sum(s.threads, Carries(o)) >= Carries(o)(s.threads[t])
  {
    hide Carries, Dooms, Bears, Sum;
    SumUpdate(s.threads, Carries(o), t, s'.threads[t]);
    SumUpdate(s.threads, Dooms(o), t, s'.threads[t]);
    SumUpdate(s.threads, Bears(o), t, s'.threads[t]);
    SumAtLeast(s.threads, Carries(o), t);
    SumAtLeast(s.threads, Dooms(o), t);
    SumAtLeast(s.threads, Bears(o), t);
  }

  lemma HandleSum(handles: seq<Handle>, h: nat, x: Handle, o: nat)
    requires h < |handles|
    ensures Sum(handles[h := x], Owns(o)) + Owns(o)(handles[h]) == Sum(handles, Owns(o)) + Owns(o)(x)
    ensures Sum(handles, Owns(o)) >= Owns(o)(handles[h])
  {
    SumUpdate(handles, Owns(o), h, x);
    SumAtLeast(handles, Owns(o), h);
  }

  /** A new object has no references yet. */
  lemma NothingYet(s: State)
    requires InRange(s)
    ensures var o := |s.objects|;
      References(s, o) == 0 && Sum(s.threads, Dooms(o)) == 0 && Sum(s.threads, Bears(o)) == 0
      && Sum(s.threads, Carries(o)) == 0 && Sum(s.handles, Owns(o)) == 0
  {
    hide Sum;
    var o := |s.objects|;
    forall i | 0 <= i < |s.handles| ensures Owns(o)(s.handles[i]) == 0 {
      assert HandleInRange(s, s.handles[i]);
    }
    forall i | 0 <= i < |s.threads|
      ensures Carries(o)(s.threads[i]) == 0 && Dooms(o)(s.threads[i]) == 0 && Bears(o)(s.threads[i]) == 0
    {
      assert PcInRange(s, s.threads[i]);
    }
    SumZero(s.handles, Owns(o));
    SumZero(s.threads, Carries(o));
    SumZero(s.threads, Dooms(o));
    SumZero(s.threads, Bears(o));
  }

  /** A handle that owns, or a thread that bears or dooms, says how far the object's life has come. */
  lemma OwnedAlive(s: State, o: nat, h: nat)
    requires o < |s.objects| && ObjectOk(s, o) && h < |s.handles| && s.handles[h] == Handle(To(o), true)
    ensures s.objects[o].alive && s.objects[o].count > 0 && s.objects[o].dropped == 0 && Sum(s.threads, Bears(o)) == 0
  {
    SumAtLeast(s.handles, Owns(o), h);
  }

  lemma BeginObject(s: State, t: nat, a: Action, o: nat)
    requires Inv(s) && Enabled(s, t, a) && o < |s.objects|
    requires a.MakeNull? || a.CopyFrom? || a.AssignNull? || a.AssignFrom?
    ensures ObjectOk(Step(s, t, a), o)
  {
    hide Sum, ThreadsOk, HandlesOk, InRange;
    assert InRange(s) && ObjectOk(s, o);
    var s' := Step(s, t, a);
    ThreadSums(s, s', t, o);
    if a.MakeNull? || a.CopyFrom? {
      HandleSum(s.handles, a.h, s'.handles[a.h], o);
    }
  }

  lemma NewObject(s: State, t: nat, a: Action, o: nat)
    requires Inv(s) && Enabled(s, t, a) && (a.MakeNew? || a.AssignNew?) && o <= |s.objects|
    ensures ObjectOk(Step(s, t, a), o)
  {
    hide Sum, ThreadsOk, HandlesOk, InRange;
    var s' := Step(s, t, a);
    ThreadSums(s, s', t, o);
    if o == |s.objects| {
      NothingYet(s);
    } else {
      assert ObjectOk(s, o);
    }
    if a.MakeNew? {
      HandleSum(s.handles, a.h, s'.handles[a.h], o);
    }
  }

  lemma MoveObject(s: State, t: nat, a: Action, o: nat)
    requires Inv(s) && Enabled(s, t, a) && (a.MoveFrom? || a.Swap? || a.ReleaseRaw?) && o < |s.objects|
    ensures ObjectOk(Step(s, t, a), o)
  {
    hide Sum, ThreadsOk, HandlesOk, InRange;
    assert InRange(s) && ObjectOk(s, o) && HandlesOk(s);
    var s' := Step(s, t, a);
    if a.ReleaseRaw? {
      ExclusiveSettled(s, t, a.h);
      HandleSum(s.handles, a.h, s'.handles[a.h], o);
    } else {
      var mid := s.handles[a.h := s.handles[a.r]];
      HandleSum(s.handles, a.h, s.handles[a.r], o);
      HandleSum(mid, a.r, s'.handles[a.r], o);
    }
  }

  lemma CopyAddObject(s: State, t: nat, o: nat)
    requires Inv(s) && Enabled(s, t, CopyAddRef) && o < |s.objects|
    ensures ObjectOk(Step(s, t, CopyAddRef), o)
  {
    hide Sum, HandlesOk, InRange, Apart;
    var s', pc := Step(s, t, CopyAddRef), s.threads[t];
    assert InRange(s) && ObjectOk(s, o) && PcOk(s, pc);
    ThreadSums(s, s', t, o);
    if o == pc.obj && pc.source.From? {
      OwnedAlive(s, o, pc.source.handle);
    }
    HandleSum(s.handles, pc.target, s'.handles[pc.target], o);
  }

  lemma AssignAddObject(s: State, t: nat, o: nat)
    requires Inv(s) && Enabled(s, t, AssignAddRef) && o < |s.objects|
    ensures ObjectOk(Step(s, t, AssignAddRef), o)
  {
    hide Sum, HandlesOk, InRange, Apart;
    var s', pc := Step(s, t, AssignAddRef), s.threads[t];
    assert InRange(s) && ObjectOk(s, o) && PcOk(s, pc);
    ThreadSums(s, s', t, o);
    if o == pc.obj && pc.source.From? {
      OwnedAlive(s, o, pc.source.handle);
    }
  }

  lemma ReleaseObject(s: State, t: nat, o: nat)
    requires Inv(s) && Enabled(s, t, AssignRelease) && o < |s.objects|
    ensures ObjectOk(Step(s, t, AssignRelease), o)
  {
    hide Sum, HandlesOk, InRange, Apart;
    var s', pc := Step(s, t, AssignRelease), s.threads[t];
    assert InRange(s) && ObjectOk(s, o) && PcOk(s, pc);
    ThreadSums(s, s', t, o);
    HandleSum(s.handles, pc.target, s'.handles[pc.target], o);
  }

  lemma DestroyObject(s: State, t: nat, h: nat, o: nat)
    requires Inv(s) && Enabled(s, t, Destroy(h)) && o < |s.objects|
    ensures ObjectOk(Step(s, t, Destroy(h)), o)
  {
    hide Sum, ThreadsOk, InRange, Writable, UnusedBut;
    var s' := Step(s, t, Destroy(h));
    assert InRange(s) && ObjectOk(s, o) && HandlesOk(s);
    ExclusiveSettled(s, t, h);
    ThreadSums(s, s', t, o);
    HandleSum(s.handles, h, s'.handles[h], o);
  }

  lemma DropObject(s: State, t: nat, x: nat, o: nat)
    requires Inv(s) && Enabled(s, t, DropRaw(x)) && o < |s.objects|
    ensures ObjectOk(Step(s, t, DropRaw(x)), o)
  {
    hide Sum, ThreadsOk, InRange, HandlesOk;
    assert InRange(s) && ObjectOk(s, o);
    ThreadSums(s, Step(s, t, DropRaw(x)), t, o);
  }

  lemma EndObject(s: State, t: nat, a: Action, o: nat)
    requires Inv(s) && Enabled(s, t, a) && (a.AssignDelete? || a.AssignStore? || a.Delete?) && o < |s.objects|
    ensures ObjectOk(Step(s, t, a), o)
  {
    hide Sum, HandlesOk, InRange, Apart;
    var s', pc := Step(s, t, a), s.threads[t];
    assert InRange(s) && ObjectOk(s, o) && PcOk(s, pc);
    ThreadSums(s, s', t, o);
    if a.AssignStore? {
      HandleSum(s.handles, pc.target, s'.handles[pc.target], o);
    }
  }

  lemma ObjectsGrow(s: State, t: nat, a: Action)
    requires InRange(s) && Enabled(s, t, a)
    ensures |Step(s, t, a).objects| == |s.objects| + One(a.MakeNew? || a.AssignNew?)
  {
  }

  lemma StepObject(s: State, t: nat, a: Action, o: nat)
    requires Inv(s) && Enabled(s, t, a) && o < |Step(s, t, a).objects|
    ensures ObjectOk(Step(s, t, a), o)
  {
    hide ObjectOk, Enabled, Step, ThreadsOk, HandlesOk;
    ObjectsGrow(s, t, a);
    match a {
      case MakeNew(_) => NewObject(s, t, a, o);
      case AssignNew(_) => NewObject(s, t, a, o);
      case MoveFrom(_, _) => MoveObject(s, t, a, o);
      case Swap(_, _) => MoveObject(s, t, a, o);
      case ReleaseRaw(_) => MoveObject(s, t, a, o);
      case CopyAddRef => CopyAddObject(s, t, o);
      case AssignAddRef => AssignAddObject(s, t, o);
      case AssignRelease => ReleaseObject(s, t, o);
      case Destroy(h) => DestroyObject(s, t, h, o);
      case DropRaw(x) => DropObject(s, t, x, o);
      case AssignDelete => EndObject(s, t, a, o);
      case AssignStore => EndObject(s, t, a, o);
      case Delete => EndObject(s, t, a, o);
      case MakeNull(_) => BeginObject(s, t, a, o);
      case CopyFrom(_, _) => BeginObject(s, t, a, o);
      case AssignNull(_) => BeginObject(s, t, a, o);
      case AssignFrom(_, _) => BeginObject(s, t, a, o);
    }
  }

  lemma StepInv(s: State, t: nat, a: Action)
    requires Inv(s) && Enabled(s, t, a)
    ensures Inv(Step(s, t, a))
  {
    hide ObjectOk, Step, Enabled, ThreadsOk, HandlesOk, InRange;
    StepOrderly(s, t, a);
    var s' := Step(s, t, a);
    forall o | 0 <= o < |s'.objects| ensures ObjectOk(s', o) {
      StepObject(s, t, a, o);
    }
  }

  // ---------- what follows ----------

  /** No step touches a deleted object: whatever a thread adds to, releases or deletes still exists. */
  lemma TouchesLive(s: State, t: nat, a: Action)
    requires Inv(s) && Enabled(s, t, a)
    ensures Touched(s, t, a).To? ==> Touched(s, t, a).obj < |s.objects| && s.objects[Touched(s, t, a).obj].alive
  {
    hide ObjectOk, UnusedBut, Writable;
    var pc := s.threads[t];
    assert PcOk(s, pc);
    if a.DropRaw? {
      RawAlive(s, a.obj);
    } else if a.Destroy? {
      ExclusiveSettled(s, t, a.h);
      if s.handles[a.h].ptr.To? {
        OwnedAlive(s, s.handles[a.h].ptr.obj, a.h);
      }
    } else if a.AssignRelease? {
      if s.handles[pc.target].ptr.To? {
        assert HandleInRange(s, s.handles[pc.target]);
        OwnedAlive(s, s.handles[pc.target].ptr.obj, pc.target);
      }
    } else if a.AssignDelete? || a.Delete? {
      DoomedAlive(s, t, pc.last);
    } else if a.CopyAddRef? || a.AssignAddRef? {
      if pc.source.From? {
        OwnedAlive(s, pc.obj, pc.source.handle);
      } else {
        BornAlive(s, t, pc.obj);
      }
    }
  }

  lemma RawAlive(s: State, o: nat)
    requires o in s.raws && o < |s.objects| && ObjectOk(s, o)
    ensures s.objects[o].alive
  {
  }

  lemma DoomedAlive(s: State, t: nat, o: nat)
    requires t < |s.threads| && o < |s.objects| && ObjectOk(s, o) && Dooms(o)(s.threads[t]) == 1
    ensures s.objects[o].alive
  {
    SumAtLeast(s.threads, Dooms(o), t);
  }

  lemma BornAlive(s: State, t: nat, o: nat)
    requires t < |s.threads| && o < |s.objects| && ObjectOk(s, o) && Bears(o)(s.threads[t]) == 1
    ensures s.objects[o].alive
  {
    SumAtLeast(s.threads, Bears(o), t);
  }

  /** A count of one seen through a handle that owns its reference means that nobody else has one. */
  lemma HasOneRef(s: State, h: nat, o: nat)
    requires Inv(s) && h < |s.handles| && s.handles[h] == Handle(To(o), true) && o < |s.objects|
    requires s.objects[o].count == 1
    ensures forall g :: 0 <= g < |s.handles| && s.handles[g] == Handle(To(o), true) ==> g == h
    ensures forall t :: 0 <= t < |s.threads| ==> Carries(o)(s.threads[t]) == 0
    ensures o !in s.raws
  {
    hide Sum, Orderly;
    assert ObjectOk(s, o);
    SumAtLeast(s.handles, Owns(o), h);
    forall g | 0 <= g < |s.handles| && s.handles[g] == Handle(To(o), true) ensures g == h {
      if g < h {
        SumTwo(s.handles, Owns(o), g, h);
      } else if h < g {
        SumTwo(s.handles, Owns(o), h, g);
      }
    }
    forall t | 0 <= t < |s.threads| ensures Carries(o)(s.threads[t]) == 0 {
      SumAtLeast(s.threads, Carries(o), t);
    }
  }

  /** Nothing leaks: with every handle empty, every thread idle and no reference owned by hand, every object
      ever made has had its last reference dropped, once, and is gone. */
  lemma NothingLeft(s: State)
    requires Inv(s) && s.raws == multiset{}
    requires forall h :: 0 <= h < |s.handles| ==> s.handles[h].Unused? || s.handles[h].ptr == Null
    requires forall t :: 0 <= t < |s.threads| ==> s.threads[t].Idle?
    ensures forall o :: 0 <= o < |s.objects| ==> !s.objects[o].alive && s.objects[o].dropped == 1
  {
    hide Sum, Orderly;
    forall o | 0 <= o < |s.objects| ensures !s.objects[o].alive && s.objects[o].dropped == 1 {
      assert ObjectOk(s, o);
      SumZero(s.handles, Owns(o));
      SumZero(s.threads, Carries(o));
      SumZero(s.threads, Dooms(o));
      SumZero(s.threads, Bears(o));
    }
  }

  // ---------- runs ----------

  datatype Turn = Turn(thread: nat, action: Action)

  function Initial(handles: nat, threads: nat): State {
    State([], seq(handles, _ => Unused), seq(threads, _ => Idle), multiset{})
  }

  lemma InitialInv(handles: nat, threads: nat)
    ensures Inv(Initial(handles, threads))
  {
  }

  predicate Follows(s: State, schedule: seq<Turn>)
    decreases |schedule|
  {
    schedule == []
    || (InRange(s) && Enabled(s, schedule[0].thread, schedule[0].action)
        && Follows(Step(s, schedule[0].thread, schedule[0].action), schedule[1..]))
  }

  function After(s: State, schedule: seq<Turn>): State
    requires Follows(s, schedule)
    decreases |schedule|
  {
    if schedule == [] then s else After(Step(s, schedule[0].thread, schedule[0].action), schedule[1..])
  }

  lemma {:induction false} RunInv(s: State, schedule: seq<Turn>)
    requires Inv(s) && Follows(s, schedule)
    ensures Inv(After(s, schedule))
    decreases |schedule|
  {
    hide Inv, Step, Enabled;
    if schedule != [] {
      StepInv(s, schedule[0].thread, schedule[0].action);
      RunInv(Step(s, schedule[0].thread, schedule[0].action), schedule[1..]);
    }
  }

  /** Safety of every run: after any schedule, every object's count is the number of references to it held
      by handles, by operations under way and by hand; its last reference has been dropped at most once,
      and exactly then it is gone or about to be deleted by the one thread that dropped it; and the next
      step, whatever it is, touches no deleted object. */
  lemma EveryRun(handles: nat, threads: nat, schedule: seq<Turn>)
    requires Follows(Initial(handles, threads), schedule)
    ensures var s := After(Initial(handles, threads), schedule);
      InRange(s)
      && (forall o :: 0 <= o < |s.objects| ==> ObjectOk(s, o))
      && forall t, a :: Enabled(s, t, a) && Touched(s, t, a).To? ==>
           Touched(s, t, a).obj < |s.objects| && s.objects[Touched(s, t, a).obj].alive
  {
    hide Follows, After, ObjectOk, Enabled, Touched, ThreadsOk, HandlesOk;
    InitialInv(handles, threads);
    RunInv(Initial(handles, threads), schedule);
    var s := After(Initial(handles, threads), schedule);
    forall t, a | Enabled(s, t, a) && Touched(s, t, a).To?
      ensures Touched(s, t, a).obj < |s.objects| && s.objects[Touched(s, t, a).obj].alive
    {
      TouchesLive(s, t, a);
    }
  }
}
