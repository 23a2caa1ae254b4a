/** What every step of every interleaving keeps, and what follows for whole runs. */
module SwapQueueProof {
  import opened Bytes
  import opened SwapQueueSpec

  // ---------- one step ----------

  /** While both threads may touch their slot, it is never the same one. */
  lemma SlotsApart<T>(s: State<T>)
    requires Indexed(s) && ChecksHold(s)
    requires s.producer.RoomSeen? || s.producer.ItemStored?
    requires s.consumer.ItemSeen? || s.consumer.ItemTaken?
    ensures s.writeIndex != s.readIndex
  {
  }

  lemma InsertIndexed<T>(s: State<T>, a: Action<T>)
    requires Indexed(s) && ChecksHold(s) && Enabled(s, a) && Inserts(a)
    ensures Indexed(Step(s, a)) && ChecksHold(Step(s, a))
  {
  }

  lemma RemoveIndexed<T>(s: State<T>, a: Action<T>)
    requires Indexed(s) && ChecksHold(s) && Enabled(s, a)
    requires a.RemoveLoad? || a.RemoveSwap? || a.RemoveBump?
    ensures Indexed(Step(s, a)) && ChecksHold(Step(s, a))
  {
    if s.producer.ItemStored? && s.consumer.ItemSeen? {
      SlotsApart(s);
    }
  }

  lemma SubIndexed<T>(s: State<T>)
    requires Indexed(s) && ChecksHold(s) && s.consumer.ItemTaken?
    ensures Indexed(Step(s, RemoveSub)) && ChecksHold(Step(s, RemoveSub))
  {
  }

  lemma ClearIndexed<T>(s: State<T>, a: Action<T>)
    requires Indexed(s) && ChecksHold(s) && Enabled(s, a) && (a.ClearExchange? || a.ClearAdvance? || a.SizeLoad?)
    ensures Indexed(Step(s, a)) && ChecksHold(Step(s, a))
  {
  }

  lemma StepIndexed<T>(s: State<T>, a: Action<T>)
    requires Indexed(s) && ChecksHold(s) && Enabled(s, a)
    ensures Indexed(Step(s, a)) && ChecksHold(Step(s, a))
  {
    hide Step, Indexed, ChecksHold;
    if Inserts(a) {
      InsertIndexed(s, a);
    } else if a.ClearExchange? || a.ClearAdvance? || a.SizeLoad? {
      ClearIndexed(s, a);
    } else if a.RemoveSub? {
      SubIndexed(s);
    } else {
      RemoveIndexed(s, a);
    }
  }

  /** What each step does to the queue's items: only three of them do anything. */
  lemma StepContents<T>(s: State<T>, a: Action<T>)
    requires Indexed(s) && ChecksHold(s) && Enabled(s, a)
    ensures Indexed(Step(s, a))
    ensures a.RemoveSub? ==> s.num > 0 && Contents(s)[0] == s.consumer.hand
    ensures Contents(Step(s, a))
         == match a
            case InsertAdd => Contents(s) + [s.producer.item]
            case RemoveSub => Contents(s)[1..]
            case ClearExchange => []
            case _ => Contents(s)
  {
    hide Contents, Item;
    StepIndexed(s, a);
    if a.InsertAdd? {
      AddContents(s);
    } else if a.RemoveSub? {
      SubContents(s);
    } else if a.ClearExchange? {
      NoContents(Step(s, a));
    } else {
      QuietContents(s, a);
    }
  }

  lemma NoContents<T>(s: State<T>)
    requires Indexed(s) && s.num == 0
    ensures Contents(s) == []
  {
  }

  lemma QuietItem<T>(s: State<T>, a: Action<T>, i: nat)
    requires Indexed(s) && ChecksHold(s) && Enabled(s, a) && i < s.num && Indexed(Step(s, a))
    requires !a.InsertAdd? && !a.RemoveSub? && !a.ClearExchange?
    ensures Step(s, a).num == s.num && Item(s, i) == Item(Step(s, a), i)
  {
    QuietHead(s, a);
    if a.InsertSwap? {
      assert Wrap(Head(s) + i, |s.slots|) != s.writeIndex;
    } else if a.RemoveSwap? && i > 0 {
      assert Wrap(Head(s) + i, |s.slots|) != s.readIndex;
    }
  }

  lemma QuietHead<T>(s: State<T>, a: Action<T>)
    requires Indexed(s) && Enabled(s, a) && Indexed(Step(s, a))
    requires !a.InsertAdd? && !a.RemoveSub? && !a.ClearExchange?
    ensures |Step(s, a).slots| == |s.slots| && Head(Step(s, a)) == Head(s)
  {
  }

  /** The steps that do not change the count leave the items alone, whatever they swap. */
  lemma QuietContents<T>(s: State<T>, a: Action<T>)
    requires Indexed(s) && ChecksHold(s) && Enabled(s, a)
    requires !a.InsertAdd? && !a.RemoveSub? && !a.ClearExchange?
    ensures Indexed(Step(s, a)) && Contents(Step(s, a)) == Contents(s)
  {
    hide Contents, Item;
    StepIndexed(s, a);
    var t := Step(s, a);
    forall i | 0 <= i < s.num ensures Item(s, i) == Item(t, i) {
      QuietItem(s, a, i);
    }
    SameItems(s, t);
  }

  lemma AddContents<T>(s: State<T>)
    requires Indexed(s) && ChecksHold(s) && s.producer.ItemStored?
    ensures var t := Step(s, InsertAdd); Indexed(t) && Contents(t) == Contents(s) + [s.producer.item]
  {
    var t := Step(s, InsertAdd);
    StepIndexed(s, InsertAdd);
    forall i | 0 <= i < s.num + 1 ensures Contents(t)[i] == (Contents(s) + [s.producer.item])[i] {
      assert Contents(t)[i] == Item(t, i);
    }
  }

  lemma SubContents<T>(s: State<T>)
    requires Indexed(s) && ChecksHold(s) && s.consumer.ItemTaken?
    ensures var t := Step(s, RemoveSub);
      Indexed(t) && Contents(t) == Contents(s)[1..] && Contents(s)[0] == s.consumer.hand
  {
    var t := Step(s, RemoveSub);
    StepIndexed(s, RemoveSub);
    forall i | 0 <= i < t.num ensures Contents(t)[i] == Contents(s)[1..][i] {
      assert Item(t, i) == Item(s, i + 1);
    }
  }

  lemma SameItems<T>(s: State<T>, t: State<T>)
    requires Indexed(s) && Indexed(t) && s.num == t.num
    requires forall i :: 0 <= i < s.num ==> Item(s, i) == Item(t, i)
    ensures Contents(s) == Contents(t)
  {
  }

  /** Every step is a legal call, or no call at all, on the abstract queue. */
  lemma StepLog<T>(s: State<T>, a: Action<T>)
    requires Indexed(s) && ChecksHold(s) && Enabled(s, a) && Replay(|s.slots|, s.log) == Some(Contents(s))
    ensures Indexed(Step(s, a)) && Replay(|s.slots|, Step(s, a).log) == Some(Contents(Step(s, a)))
  {
    StepContents(s, a);
    StepEvent(s, a);
    hide Contents, Step, Replay, Enabled, ChecksHold;
    var log := Step(s, a).log;
    if log != s.log {
      ReplayNext(|s.slots|, s.log, log[|s.log|]);
    }
  }

  /** What a step logs is what it does to the items. */
  lemma StepEvent<T>(s: State<T>, a: Action<T>)
    requires Indexed(s) && ChecksHold(s) && Enabled(s, a)
    ensures Indexed(Step(s, a)) && |Step(s, a).slots| == |s.slots|
    ensures var t := Step(s, a);
      if t.log == s.log then Contents(t) == Contents(s)
      else |t.log| == |s.log| + 1 && t.log == s.log + [t.log[|s.log|]]
           && Apply(|s.slots|, Contents(s), t.log[|s.log|]) == Some(Contents(t))
  {
    StepContents(s, a);
    hide Contents, ChecksHold;
    assert s.producer.ItemStored? ==> s.num < |s.slots| by { RoomLeft(s); }
  }

  lemma RoomLeft<T>(s: State<T>)
    requires Indexed(s) && ChecksHold(s)
    ensures s.producer.ItemStored? ==> s.num < |s.slots|
  {
  }

  lemma SwapConserves<T>(slots: seq<T>, i: nat, hand: T)
    requires i < |slots|
    ensures multiset(slots[i := hand]) + multiset{slots[i]} == multiset(slots) + multiset{hand}
  {
    assert slots == slots[..i] + [slots[i]] + slots[i + 1..];
    assert slots[i := hand] == slots[..i] + [hand] + slots[i + 1..];
  }

  /** What a step brings in from the caller. */
  function Brought<T>(a: Action<T>): multiset<T> {
    match a case InsertLoad(input) => multiset{input} case RemoveLoad(output) => multiset{output} case _ => multiset{}
  }

  lemma Regroup<T>(a: multiset<T>, b: multiset<T>, a': multiset<T>, b': multiset<T>, c: multiset<T>, d: multiset<T>)
    requires a' + b' == a + b
    ensures a' + (b' + c + d) == a + (b + c + d) && a' + (c + b' + d) == a + (c + b + d)
  {
    assert a' + (b' + c + d) == (a' + b') + (c + d) && a + (b + c + d) == (a + b) + (c + d);
    assert a' + (c + b' + d) == (a' + b') + (c + d) && a + (c + b + d) == (a + b) + (c + d);
  }

  lemma SwapHand<T>(s: State<T>, a: Action<T>)
    requires Indexed(s) && Enabled(s, a) && (a.InsertSwap? || a.RemoveSwap?)
    ensures var t := Step(s, a);
      t.given == s.given && t.returned == s.returned
      && if a.InsertSwap? then
           t.consumer == s.consumer
           && multiset(t.slots) + ProducerHand(t.producer) == multiset(s.slots) + ProducerHand(s.producer)
         else
           t.producer == s.producer
           && multiset(t.slots) + ConsumerHand(t.consumer) == multiset(s.slots) + ConsumerHand(s.consumer)
  {
    if a.InsertSwap? {
      SwapConserves(s.slots, s.writeIndex, s.producer.hand);
    } else {
      SwapConserves(s.slots, s.readIndex, s.consumer.hand);
    }
  }

  /** The swaps leave ring and hands together as they were. */
  lemma HeldSwap<T>(s: State<T>, a: Action<T>)
    requires Indexed(s) && Enabled(s, a) && (a.InsertSwap? || a.RemoveSwap?)
    ensures Held(Step(s, a)) == Held(s) && Step(s, a).given == s.given
  {
    hide Step, Enabled, ProducerHand, ConsumerHand;
    SwapHand(s, a);
    var t := Step(s, a);
    if a.InsertSwap? {
      Regroup(multiset(s.slots), ProducerHand(s.producer), multiset(t.slots), ProducerHand(t.producer),
              ConsumerHand(s.consumer), s.returned);
    } else {
      Regroup(multiset(s.slots), ConsumerHand(s.consumer), multiset(t.slots), ConsumerHand(t.consumer),
              ProducerHand(s.producer), s.returned);
    }
  }

  lemma InsertHand<T>(s: State<T>, a: Action<T>)
    requires Indexed(s) && Enabled(s, a) && Inserts(a) && !a.InsertSwap?
    ensures var t := Step(s, a);
      t.slots == s.slots && t.given == s.given + Brought(a) && t.consumer == s.consumer
      && ProducerHand(t.producer) + t.returned == ProducerHand(s.producer) + s.returned + Brought(a)
  {
  }

  lemma RemoveHand<T>(s: State<T>, a: Action<T>)
    requires Indexed(s) && Enabled(s, a) && !Inserts(a) && !a.RemoveSwap?
    ensures var t := Step(s, a);
      t.slots == s.slots && t.given == s.given + Brought(a) && t.producer == s.producer
      && ConsumerHand(t.consumer) + t.returned == ConsumerHand(s.consumer) + s.returned + Brought(a)
  {
    var t := Step(s, a);
    if a.RemoveLoad? {
      assert s.consumer.NotRemoving? && ConsumerHand(s.consumer) == multiset{};
    } else {
      assert Brought(a) == multiset{} && t.given == s.given;
      QuietHand(s, a);
    }
  }

  /** Past the load a consumer's step at most hands back what it holds. */
  lemma QuietHand<T>(s: State<T>, a: Action<T>)
    requires Indexed(s) && Enabled(s, a) && !Inserts(a) && !a.RemoveSwap? && !a.RemoveLoad?
    ensures var t := Step(s, a);
      if a.RemoveBump? then
        ConsumerHand(t.consumer) == multiset{} && t.returned == s.returned + ConsumerHand(s.consumer)
      else ConsumerHand(t.consumer) == ConsumerHand(s.consumer) && t.returned == s.returned
  {
  }

  /** The other steps leave the ring alone and the hands with what the caller brought in. */
  lemma HeldOther<T>(s: State<T>, a: Action<T>)
    requires Indexed(s) && Enabled(s, a) && !a.InsertSwap? && !a.RemoveSwap?
    ensures var t := Step(s, a);
      t.slots == s.slots && t.given == s.given + Brought(a)
      && ProducerHand(t.producer) + ConsumerHand(t.consumer) + t.returned
         == ProducerHand(s.producer) + ConsumerHand(s.consumer) + s.returned + Brought(a)
  {
    hide Step, ProducerHand, ConsumerHand, Enabled, Brought;
    var t := Step(s, a);
    var p, c, r, x := ProducerHand(s.producer), ConsumerHand(s.consumer), s.returned, Brought(a);
    if Inserts(a) {
      InsertHand(s, a);
      assert ProducerHand(t.producer) + c + t.returned == ProducerHand(t.producer) + t.returned + c;
      assert p + c + r + x == p + r + x + c;
    } else {
      RemoveHand(s, a);
      assert p + ConsumerHand(t.consumer) + t.returned == p + (ConsumerHand(t.consumer) + t.returned);
      assert p + c + r + x == p + (c + r + x);
    }
  }

  lemma AddToBoth<T>(a: multiset<T>, b: multiset<T>, c: multiset<T>, d: multiset<T>, x: multiset<T>)
    requires a + b == c + d
    ensures a + (b + x) == c + (d + x)
  {
    assert a + (b + x) == (a + b) + x;
    assert c + (d + x) == (c + d) + x;
  }

  lemma StepConserved<T>(s: State<T>, a: Action<T>, initial: multiset<T>)
    requires Indexed(s) && Enabled(s, a) && Conserved(s, initial)
    ensures Conserved(Step(s, a), initial)
  {
    hide Step, ProducerHand, ConsumerHand, Enabled, Brought;
    if a.InsertSwap? || a.RemoveSwap? {
      HeldSwap(s, a);
    } else {
      HeldOther(s, a);
      AddToBoth(initial, s.given, multiset(s.slots),
                ProducerHand(s.producer) + ConsumerHand(s.consumer) + s.returned, Brought(a));
    }
  }

  lemma StepInv<T>(s: State<T>, a: Action<T>, initial: multiset<T>)
    requires Inv(s, initial) && Enabled(s, a)
    ensures Inv(Step(s, a), initial) && |Step(s, a).slots| == |s.slots|
  {
    hide Replay, Contents, Conserved, ChecksHold;
    StepIndexed(s, a);
    StepLog(s, a);
    StepConserved(s, a, initial);
  }

  // ---------- runs ----------

  /** A schedule both threads can follow from a state. */
  predicate Follows<T(==)>(s: State<T>, schedule: seq<Action<T>>)
    decreases |schedule|
  {
    schedule == []
    || (s.writeIndex < |s.slots| && s.readIndex < |s.slots| && Enabled(s, schedule[0])
        && Follows(Step(s, schedule[0]), schedule[1..]))
  }

  function After<T(==)>(s: State<T>, schedule: seq<Action<T>>): State<T>
    requires Follows(s, schedule)
    decreases |schedule|
  {
    if schedule == [] then s else After(Step(s, schedule[0]), schedule[1..])
  }

  lemma {:induction false} RunInv<T>(s: State<T>, schedule: seq<Action<T>>, initial: multiset<T>)
    requires Inv(s, initial) && Follows(s, schedule)
    ensures Inv(After(s, schedule), initial) && |After(s, schedule).slots| == |s.slots|
    decreases |schedule|
  {
    hide Inv, Step, Enabled;
    if schedule != [] {
      StepInv(s, schedule[0], initial);
      RunInv(Step(s, schedule[0]), schedule[1..], initial);
    }
  }

  /** Safety of every interleaving: from a fresh queue, after any schedule, the log of what the calls did
      is a legal history of a plain bounded queue whose items are the ones now in it; nothing was lost. */
  lemma Linearizable<T>(slots: seq<T>, schedule: seq<Action<T>>)
    requires |slots| > 0 && Follows(Initial(slots), schedule)
    ensures var s := After(Initial(slots), schedule);
      Indexed(s) && ChecksHold(s) && Conserved(s, multiset(slots)) && |s.slots| == |slots|
      && Replay(|slots|, s.log) == Some(Contents(s))
  {
    hide Follows, After, Replay, Contents, ChecksHold, Conserved;
    InitialInv(slots);
    RunInv(Initial(slots), schedule, multiset(slots));
  }

  /** Items inserted so far, and items removed or dropped by Clear so far, in order. */
  function InsertedSoFar<T>(log: seq<Event<T>>): seq<T> {
    if log == [] then []
    else
      var e := log[|log| - 1];
      InsertedSoFar(log[..|log| - 1]) + if e.Inserted? then [e.item] else []
  }

  function GoneSoFar<T(==)>(size: nat, log: seq<Event<T>>): seq<T> {
    if log == [] then []
    else
      var before := log[..|log| - 1];
      GoneSoFar(size, before)
      + match log[|log| - 1]
        case Removed(item) => [item]
        case Cleared => if Replay(size, before).Some? then Replay(size, before).value else []
        case _ => []
  }

  /** First in, first out: what was inserted is what is gone followed by what is there. */
  lemma {:induction false} Fifo<T>(size: nat, log: seq<Event<T>>)
    requires Replay(size, log).Some?
    ensures InsertedSoFar(log) == GoneSoFar(size, log) + Replay(size, log).value
    decreases |log|
  {
    if log != [] {
      var before, e := log[..|log| - 1], log[|log| - 1];
      Fifo(size, before);
      var q := Replay(size, before).value;
      assert e.Removed? ==> q == [e.item] + q[1..];
    }
  }

  lemma FifoAlways<T>(slots: seq<T>, schedule: seq<Action<T>>)
    requires |slots| > 0 && Follows(Initial(slots), schedule)
    ensures var s := After(Initial(slots), schedule);
      Indexed(s) && InsertedSoFar(s.log) == GoneSoFar(|slots|, s.log) + Contents(s)
  {
    hide Follows, After, Replay, Contents, ChecksHold, Conserved, InsertedSoFar, GoneSoFar, Indexed;
    Linearizable(slots, schedule);
    Fifo(|slots|, After(Initial(slots), schedule).log);
  }

  /** The ring equation: the read index with what the consumer has announced, and the count, reach the
      write index with what the producer has announced. */
  lemma RingEquation<T>(s: State<T>)
    requires Indexed(s)
    ensures (s.readIndex + ConsumerAhead(s.consumer) + s.num) % |s.slots|
         == (s.writeIndex + ProducerAhead(s.producer)) % |s.slots|
  {
    RingArithmetic(s.readIndex + ConsumerAhead(s.consumer), s.num, s.writeIndex + ProducerAhead(s.producer), |s.slots|);
  }

  lemma RingArithmetic(x: nat, num: nat, y: nat, n: nat)
    requires 0 < n && x <= 2 * n && y <= 2 * n && Wrap(x, n) + num <= 2 * n
    requires Wrap(Wrap(x, n) + num, n) == Wrap(y, n)
    ensures (x + num) % n == y % n
  {
    hide Wrap;
    var head := Wrap(x, n);
    WrapMod(x, n, num);
    WrapMod(head + num, n, 0);
    WrapMod(y, n, 0);
    assert Wrap(head + num, n) + 0 == Wrap(head + num, n) && Wrap(y, n) + 0 == Wrap(y, n);
  }

  lemma WrapMod(i: nat, n: nat, k: nat)
    requires 0 < n && i <= 2 * n
    ensures (Wrap(i, n) + k) % n == (i + k) % n
  {
    if i >= n {
      var q, r := (i - n + k) / n, (i - n + k) % n;
      assert i - n + k == n * q + r;
      DivUnique(i + k, n, q + 1, r);
    }
  }

  /** The item verifier's promise: if the first slots and everything passed in satisfy it, so does
      everything in the ring and everything handed back. */
  lemma VerifierKept<T>(slots: seq<T>, schedule: seq<Action<T>>, ok: T -> bool)
    requires |slots| > 0 && Follows(Initial(slots), schedule)
    requires forall x :: x in slots ==> ok(x)
    requires forall x :: x in After(Initial(slots), schedule).given ==> ok(x)
    ensures var s := After(Initial(slots), schedule);
      (forall x :: x in s.slots ==> ok(x)) && (forall x :: x in s.returned ==> ok(x))
  {
    hide Follows, After, Replay, Contents, ChecksHold, Indexed;
    Linearizable(slots, schedule);
    var s := After(Initial(slots), schedule);
    forall x | x in s.slots ensures ok(x) {
      assert x in multiset(s.slots);
      HeldIsGiven(s, multiset(slots), x);
    }
    forall x | x in s.returned ensures ok(x) {
      HeldIsGiven(s, multiset(slots), x);
    }
  }

  lemma HeldIsGiven<T>(s: State<T>, initial: multiset<T>, x: T)
    requires Conserved(s, initial) && (x in multiset(s.slots) || x in s.returned)
    ensures x in initial || x in s.given
  {
    assert x in Held(s);
    assert x in initial + s.given;
  }

  // ---------- single calls among the other thread's steps ----------

  /** A Clear that lands between an Insert's swap and its fetch_add drops everything before that item and
      keeps the item. */
  lemma ClearDuringInsert<T>(s: State<T>)
    requires Indexed(s) && ChecksHold(s) && s.producer.ItemStored? && s.consumer.NotRemoving?
    ensures var t := Step(Step(s, ClearExchange), InsertAdd);
      Indexed(t) && Contents(t) == [s.producer.item]
  {
    hide Contents, Step;
    StepIndexed(s, ClearExchange);
    StepContents(s, ClearExchange);
    ClearKeepsProducer(s);
    StepContents(Step(s, ClearExchange), InsertAdd);
    assert [] + [s.producer.item] == [s.producer.item];
  }

  lemma ClearKeepsProducer<T>(s: State<T>)
    requires Indexed(s) && s.consumer.NotRemoving?
    ensures Step(s, ClearExchange).producer == s.producer
  {
  }

  /** SizeAtLeast is a lower bound: whatever the producer goes on to do, the items the consumer counted
      stay where they are at the front. */
  lemma {:induction false} SizeIsLowerBound<T>(s: State<T>, schedule: seq<Action<T>>)
    requires Indexed(s) && ChecksHold(s) && Follows(s, schedule)
    requires forall i :: 0 <= i < |schedule| ==> Inserts(schedule[i])
    ensures Indexed(After(s, schedule)) && Contents(s) <= Contents(After(s, schedule))
    ensures s.num <= After(s, schedule).num
    decreases |schedule|
  {
    hide Contents, Step, Indexed, ChecksHold, Enabled;
    if schedule != [] {
      var t := Step(s, schedule[0]);
      assert Inserts(schedule[0]);
      StepIndexed(s, schedule[0]);
      StepContents(s, schedule[0]);
      SizeIsLowerBound(t, schedule[1..]);
    }
  }

  /** The check inside Insert: when it adds to the count, the count was below the size. */
  lemma InsertNeverOverfills<T>(slots: seq<T>, schedule: seq<Action<T>>)
    requires |slots| > 0 && Follows(Initial(slots), schedule)
    ensures var s := After(Initial(slots), schedule);
      s.num <= |slots| && (s.producer.ItemStored? ==> s.num < |slots|)
      && (s.consumer.ItemTaken? ==> s.num > 0)
  {
    hide Follows, After, Replay, Contents, Conserved;
    Linearizable(slots, schedule);
  }
}
