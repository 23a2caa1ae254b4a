/** The lock-free single-producer, single-consumer queue as a two-thread transition system: every load,
    swap, fetch_add, fetch_sub, exchange and index bump is one step, and the threads' steps interleave
    freely. Memory is sequentially consistent. */
module SwapQueueSpec {

  /** Where a call to Insert stands. `hand` is what its argument points to. */
  datatype Producer<T> =
    | NotInserting
    | RoomSeen(hand: T)               // num_elements_ was below the size
    | ItemStored(hand: T, item: T)    // swapped, not yet counted
    | ItemCounted(hand: T)            // counted, index not yet moved

  /** Where a call of the consumer stands. */
  datatype Consumer<T> =
    | NotRemoving
    | ItemSeen(hand: T)
    | ItemTaken(hand: T)              // swapped, still counted
    | ItemUncounted(hand: T)          // no longer counted, index not yet moved
    | Exchanged(n: nat)               // Clear has reset the count, index not yet moved

  /** What the calls did, in the order of the steps at which they took effect. */
  datatype Event<T> =
    | Inserted(item: T) | InsertRefused | Removed(item: T) | RemoveRefused | Cleared | Sized(n: nat)

  datatype State<T> = State(
    slots: seq<T>, writeIndex: nat, readIndex: nat, num: nat,
    producer: Producer<T>, consumer: Consumer<T>,
    log: seq<Event<T>>,
    given: multiset<T>,      // what callers have passed in
    returned: multiset<T>)   // what they have got back

  datatype Action<T> =
    | InsertLoad(input: T) | InsertSwap | InsertAdd | InsertBump
    | RemoveLoad(output: T) | RemoveSwap | RemoveSub | RemoveBump
    | ClearExchange | ClearAdvance | SizeLoad

  function Initial<T>(slots: seq<T>): State<T> {
    State(slots, 0, 0, 0, NotInserting, NotRemoving, [], multiset{}, multiset{})
  }

  predicate Enabled<T>(s: State<T>, a: Action<T>) {
    match a
    case InsertLoad(_) => s.producer.NotInserting?
    case InsertSwap => s.producer.RoomSeen?
    case InsertAdd => s.producer.ItemStored?
    case InsertBump => s.producer.ItemCounted?
    case RemoveSwap => s.consumer.ItemSeen?
    case RemoveSub => s.consumer.ItemTaken?
    case RemoveBump => s.consumer.ItemUncounted?
    case ClearAdvance => s.consumer.Exchanged?
    case _ => s.consumer.NotRemoving?
  }

  /** The producer's own steps. */
  predicate Inserts<T>(a: Action<T>) { a.InsertLoad? || a.InsertSwap? || a.InsertAdd? || a.InsertBump? }

  /** One index further, or `n` further, around the ring. */
  function Wrap(i: nat, size: nat): nat { if i >= size then i - size else i }

  function Step<T(==)>(s: State<T>, a: Action<T>): State<T>
    requires Enabled(s, a) && s.writeIndex < |s.slots| && s.readIndex < |s.slots|
  {
    var w, r := s.writeIndex, s.readIndex;
    match a
    case InsertLoad(input) =>
      if s.num == |s.slots| then
        s.(log := s.log + [InsertRefused], given := s.given + multiset{input},
           returned := s.returned + multiset{input})
      else s.(producer := RoomSeen(input), given := s.given + multiset{input})
    case InsertSwap =>
      s.(producer := ItemStored(s.slots[w], s.producer.hand), slots := s.slots[w := s.producer.hand])
    case InsertAdd =>
      s.(producer := ItemCounted(s.producer.hand), num := s.num + 1, log := s.log + [Inserted(s.producer.item)])
    case InsertBump =>
      s.(producer := NotInserting, writeIndex := Wrap(w + 1, |s.slots|),
         returned := s.returned + multiset{s.producer.hand})
    case RemoveLoad(output) =>
      if s.num == 0 then
        s.(log := s.log + [RemoveRefused], given := s.given + multiset{output},
           returned := s.returned + multiset{output})
      else s.(consumer := ItemSeen(output), given := s.given + multiset{output})
    case RemoveSwap =>
      s.(consumer := ItemTaken(s.slots[r]), slots := s.slots[r := s.consumer.hand])
    case RemoveSub =>
      s.(consumer := ItemUncounted(s.consumer.hand), num := Decrement(s.num),
         log := s.log + [Removed(s.consumer.hand)])
    case RemoveBump =>
      s.(consumer := NotRemoving, readIndex := Wrap(r + 1, |s.slots|),
         returned := s.returned + multiset{s.consumer.hand})
    case ClearExchange => s.(consumer := Exchanged(s.num), num := 0, log := s.log + [Cleared])
    case ClearAdvance => s.(consumer := NotRemoving, readIndex := Wrap(r + s.consumer.n, |s.slots|))
    case SizeLoad => s.(log := s.log + [Sized(s.num)])
  }

  /** Subtraction of one from a `size_t`. */
  function Decrement(n: nat): nat { if n == 0 then 0xFFFF_FFFF_FFFF_FFFF else n - 1 }

  // ---------- what the log means ----------

  datatype Option<T> = None | Some(value: T)

  /** A queue of at most `size` items, one call at a time. */
  function Apply<T(==)>(size: nat, q: seq<T>, e: Event<T>): Option<seq<T>> {
    match e
    case Inserted(item) => if |q| < size then Some(q + [item]) else None
    case InsertRefused => if |q| == size then Some(q) else None
    case Removed(item) => if |q| > 0 && q[0] == item then Some(q[1..]) else None
    case RemoveRefused => if |q| == 0 then Some(q) else None
    case Cleared => Some([])
    case Sized(n) => if |q| == n then Some(q) else None
  }

  function Replay<T(==)>(size: nat, log: seq<Event<T>>): Option<seq<T>> {
    if log == [] then Some([])
    else
      match Replay(size, log[..|log| - 1])
      case None => None
      case Some(q) => Apply(size, q, log[|log| - 1])
  }

  lemma ReplayNext<T>(size: nat, log: seq<Event<T>>, e: Event<T>)
    requires Replay(size, log).Some?
    ensures Replay(size, log + [e]) == Apply(size, Replay(size, log).value, e)
  {
    assert (log + [e])[..|log|] == log;
  }

  // ---------- the invariant ----------

  /** Where the abstract queue begins and ends in the ring: the indices, plus the steps that a thread has
      announced in the count but not yet made in its own index. */
  function ConsumerAhead<T>(c: Consumer<T>): nat {
    match c case ItemUncounted(_) => 1 case Exchanged(n) => n case _ => 0
  }

  function ProducerAhead<T>(p: Producer<T>): nat { if p.ItemCounted? then 1 else 0 }

  function Head<T>(s: State<T>): nat { Wrap(s.readIndex + ConsumerAhead(s.consumer), |s.slots|) }

  function Tail<T>(s: State<T>): nat { Wrap(s.writeIndex + ProducerAhead(s.producer), |s.slots|) }

  predicate Indexed<T>(s: State<T>) {
    s.writeIndex < |s.slots| && s.readIndex < |s.slots| && s.num <= |s.slots|
    && ConsumerAhead(s.consumer) <= |s.slots| && Wrap(Head(s) + s.num, |s.slots|) == Tail(s)
  }

  /** What the checks of the calls in progress still guarantee. */
  predicate ChecksHold<T(==)>(s: State<T>)
    requires Indexed(s)
  {
    (s.producer.RoomSeen? || s.producer.ItemStored? ==> s.num < |s.slots|)
    && (s.consumer.ItemSeen? || s.consumer.ItemTaken? ==> s.num > 0)
    && (s.producer.ItemStored? ==> s.slots[s.writeIndex] == s.producer.item)
  }

  /** The queue's items: those in the ring, the first of them in the consumer's hand once it is taken. */
  function Item<T>(s: State<T>, i: nat): T
    requires Indexed(s) && i < s.num
  {
    if i == 0 && s.consumer.ItemTaken? then s.consumer.hand else s.slots[Wrap(Head(s) + i, |s.slots|)]
  }

  function Contents<T>(s: State<T>): (q: seq<T>)
    requires Indexed(s)
    ensures |q| == s.num
  {
    seq(s.num, i requires 0 <= i < s.num => Item(s, i))
  }

  function ProducerHand<T>(p: Producer<T>): multiset<T> {
    match p
    case NotInserting => multiset{}
    case RoomSeen(hand) => multiset{hand}
    case ItemStored(hand, _) => multiset{hand}
    case ItemCounted(hand) => multiset{hand}
  }

  function ConsumerHand<T>(c: Consumer<T>): multiset<T> {
    match c
    case ItemSeen(hand) => multiset{hand}
    case ItemTaken(hand) => multiset{hand}
    case ItemUncounted(hand) => multiset{hand}
    case _ => multiset{}
  }

  /** Everything in the ring, in the callers' hands during a call, or handed back. */
  function Held<T>(s: State<T>): multiset<T> {
    multiset(s.slots) + (ProducerHand(s.producer) + ConsumerHand(s.consumer) + s.returned)
  }

  /** Nothing is made or lost: the items are only ever swapped. */
  predicate Conserved<T(==)>(s: State<T>, initial: multiset<T>) {
    initial + s.given == Held(s)
  }

  predicate Inv<T(==)>(s: State<T>, initial: multiset<T>) {
    Indexed(s) && ChecksHold(s) && Replay(|s.slots|, s.log) == Some(Contents(s)) && Conserved(s, initial)
  }

  lemma InitialInv<T>(slots: seq<T>)
    requires |slots| > 0
    ensures Inv(Initial(slots), multiset(slots))
  {
  }
}
