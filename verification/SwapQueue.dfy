/** The queue itself: the shared fields, one method for each atomic step, and the calls made of them. */
module SwapQueue {
  import opened SwapQueueSpec
  import opened SwapQueueProof

  class SwapQueue<T(==)> {
    const queue: array<T>
    var nextWriteIndex: nat
    var nextReadIndex: nat
    var numElements: nat
    ghost var producer: Producer<T>
    ghost var consumer: Consumer<T>
    ghost var log: seq<Event<T>>
    ghost var given: multiset<T>
    ghost var returned: multiset<T>
    ghost const initial: multiset<T>

    ghost function Abs(): State<T>
      reads this, queue
    {
      State(queue[..], nextWriteIndex, nextReadIndex, numElements, producer, consumer, log, given, returned)
    }

    /** Holds before and after every step, whichever thread makes it. */
    ghost predicate Valid()
      reads this, queue
    {
      Inv(Abs(), initial)
    }

    /** `size` copies of the prototype. */
    constructor (size: nat, prototype: T)
      requires size > 0
      ensures Valid() && Abs() == Initial(seq(size, _ => prototype)) && fresh(queue)
    {
      queue := new T[size](_ => prototype);
      nextWriteIndex, nextReadIndex, numElements := 0, 0, 0;
      producer, consumer, log, given, returned := NotInserting, NotRemoving, [], multiset{}, multiset{};
      initial := multiset(seq(size, _ => prototype));
      new;
      assert queue[..] == seq(size, _ => prototype);
      InitialInv(queue[..]);
    }

    // ---------- the producer's steps ----------

    /** The acquire load of the count. */
    method InsertLoad(input: T) returns (room: bool)
      requires Valid() && producer.NotInserting?
      modifies this
      ensures Valid() && Abs() == Step(old(Abs()), Action.InsertLoad(input))
      ensures room == (old(numElements) != queue.Length) == producer.RoomSeen?
    {
      hide Inv, Replay, Contents;
      ghost var s := Abs();
      StepInv(s, Action.InsertLoad(input), initial);
      given := given + multiset{input};
      if numElements == queue.Length {
        room := false;
        log, returned := log + [InsertRefused], returned + multiset{input};
      } else {
        room := true;
        producer := RoomSeen(input);
      }
    }

    method InsertSwap(input: T) returns (output: T)
      requires Valid() && producer == RoomSeen(input)
      modifies this`producer, queue
      ensures Valid() && Abs() == Step(old(Abs()), Action.InsertSwap)
      ensures producer == ItemStored(output, input)
    {
      hide Replay, Contents, Conserved;
      StepInv(Abs(), Action.InsertSwap, initial);
      output := queue[nextWriteIndex];
      queue[nextWriteIndex] := input;
      producer := ItemStored(output, input);
    }

    /** The fetch_add. */
    method InsertAdd() returns (oldNumElements: nat)
      requires Valid() && producer.ItemStored?
      modifies this
      ensures Valid() && Abs() == Step(old(Abs()), Action.InsertAdd)
      ensures oldNumElements < queue.Length
    {
      hide Replay, Contents, Conserved;
      StepInv(Abs(), Action.InsertAdd, initial);
      oldNumElements := numElements;
      numElements := numElements + 1;
      log := log + [Inserted(producer.item)];
      producer := ItemCounted(producer.hand);
    }

    method InsertBump()
      requires Valid() && producer.ItemCounted?
      modifies this
      ensures Valid() && Abs() == Step(old(Abs()), Action.InsertBump)
    {
      hide Replay, Contents, Conserved;
      StepInv(Abs(), Action.InsertBump, initial);
      nextWriteIndex := nextWriteIndex + 1;
      if nextWriteIndex == queue.Length {
        nextWriteIndex := 0;
      }
      returned := returned + multiset{producer.hand};
      producer := NotInserting;
    }

    // ---------- the consumer's steps ----------

    method RemoveLoad(output: T) returns (some: bool)
      requires Valid() && consumer.NotRemoving?
      modifies this
      ensures Valid() && Abs() == Step(old(Abs()), Action.RemoveLoad(output))
      ensures some == (old(numElements) != 0) == consumer.ItemSeen?
    {
      hide Inv, Replay, Contents;
      StepInv(Abs(), Action.RemoveLoad(output), initial);
      given := given + multiset{output};
      if numElements == 0 {
        some := false;
        log, returned := log + [RemoveRefused], returned + multiset{output};
      } else {
        some := true;
        consumer := ItemSeen(output);
      }
    }

    method RemoveSwap(output: T) returns (item: T)
      requires Valid() && consumer == ItemSeen(output)
      modifies this`consumer, queue
      ensures Valid() && Abs() == Step(old(Abs()), Action.RemoveSwap)
      ensures consumer == ItemTaken(item)
    {
      hide Replay, Contents, Conserved;
      StepInv(Abs(), Action.RemoveSwap, initial);
      item := queue[nextReadIndex];
      queue[nextReadIndex] := output;
      consumer := ItemTaken(item);
    }

    /** The fetch_sub. */
    method RemoveSub()
      requires Valid() && consumer.ItemTaken?
      modifies this
      ensures Valid() && Abs() == Step(old(Abs()), Action.RemoveSub)
    {
      hide Replay, Contents, Conserved;
      StepInv(Abs(), Action.RemoveSub, initial);
      numElements := numElements - 1;
      log := log + [Removed(consumer.hand)];
      consumer := ItemUncounted(consumer.hand);
    }

    method RemoveBump()
      requires Valid() && consumer.ItemUncounted?
      modifies this
      ensures Valid() && Abs() == Step(old(Abs()), Action.RemoveBump)
    {
      hide Replay, Contents, Conserved;
      StepInv(Abs(), Action.RemoveBump, initial);
      nextReadIndex := nextReadIndex + 1;
      if nextReadIndex == queue.Length {
        nextReadIndex := 0;
      }
      returned := returned + multiset{consumer.hand};
      consumer := NotRemoving;
    }

    /** The exchange. */
    method ClearExchange() returns (dropped: nat)
      requires Valid() && consumer.NotRemoving?
      modifies this
      ensures Valid() && Abs() == Step(old(Abs()), Action.ClearExchange)
      ensures consumer == Exchanged(dropped)
    {
      hide Replay, Contents, Conserved;
      StepInv(Abs(), Action.ClearExchange, initial);
      dropped := numElements;
      numElements := 0;
      log := log + [Cleared];
      consumer := Exchanged(dropped);
    }

    method ClearAdvance(dropped: nat)
      requires Valid() && consumer == Exchanged(dropped)
      modifies this
      ensures Valid() && Abs() == Step(old(Abs()), Action.ClearAdvance)
    {
      hide Replay, Contents, Conserved;
      StepInv(Abs(), Action.ClearAdvance, initial);
      nextReadIndex := nextReadIndex + dropped;
      if nextReadIndex >= queue.Length {
        nextReadIndex := nextReadIndex - queue.Length;
      }
      consumer := NotRemoving;
    }

    method SizeAtLeast() returns (n: nat)
      requires Valid() && consumer.NotRemoving?
      modifies this`log
      ensures Valid() && Abs() == Step(old(Abs()), Action.SizeLoad) && n == numElements
    {
      hide Replay, Contents, Conserved;
      StepInv(Abs(), Action.SizeLoad, initial);
      n := numElements;
      log := log + [Sized(n)];
    }

    // ---------- the calls, when the other thread stands still anywhere in its own ----------

    method Insert(input: T) returns (ok: bool, output: T)
      requires Valid() && producer.NotInserting?
      modifies this, queue
      ensures Valid() && producer.NotInserting? && consumer == old(consumer)
      ensures ok == (old(numElements) < queue.Length)
      ensures log == old(log) + [if ok then Inserted(input) else InsertRefused]
      ensures !ok ==> output == input
    {
      hide Valid, Replay, Contents;
      ValidIndexed();
      output := input;
      ok := InsertLoad(input);
      if ok {
        ValidIndexed();
        output := InsertSwap(input);
        ValidIndexed();
        var _ := InsertAdd();
        ValidIndexed();
        InsertBump();
      }
    }

    method Remove(output: T) returns (ok: bool, item: T)
      requires Valid() && consumer.NotRemoving?
      modifies this, queue
      ensures Valid() && consumer.NotRemoving? && producer == old(producer)
      ensures ok == (old(numElements) > 0)
      ensures log == old(log) + [if ok then Removed(item) else RemoveRefused]
      ensures !ok ==> item == output
    {
      hide Valid, Replay, Contents;
      ValidIndexed();
      item := output;
      ok := RemoveLoad(output);
      if ok {
        ValidIndexed();
        item := RemoveSwap(output);
        ValidIndexed();
        RemoveSub();
        ValidIndexed();
        RemoveBump();
      }
    }

    method Clear()
      requires Valid() && consumer.NotRemoving?
      modifies this
      ensures Valid() && consumer.NotRemoving? && producer == old(producer)
      ensures numElements == 0 && log == old(log) + [Cleared]
    {
      hide Valid, Replay, Contents;
      ValidIndexed();
      var dropped := ClearExchange();
      ValidIndexed();
      ClearAdvance(dropped);
    }

    lemma ValidIndexed()
      requires Valid()
      ensures nextWriteIndex < queue.Length && nextReadIndex < queue.Length && numElements <= queue.Length
    {
    }
  }
}
