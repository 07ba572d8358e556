/** What the queue guarantees in every run, and its capacity. */
module SpscRuns {
  import opened Wrappers
  import opened Totals
  import opened Spsc
  import opened SpscConsumer
  import opened SpscProducer

  // ---------------------------------------------------------------- every run keeps the invariant

  lemma NextKeeps(s: State, s': State)
    requires Inv(s) && Next(s, s')
    ensures Inv(s')
  {
    hide Inv, CanConsume, Consume, CanProduce, Produce;
    if m :| (s.cons.Idle? || s.cons.Returned?) && s' == s.(cons := Start(m)) {
      InvView(s);
      ConsumerMoves(s, Start(m));
    } else if CanConsume(s) && s' == Consume(s) {
      ConsumeKeeps(s);
    } else if x, alloc :| (s.prod.Resting? || s.prod.Enqueued?) && s' == s.(prod := Begin(x, alloc)) {
      InvView(s);
      ProducerMoves(s, Begin(x, alloc));
    } else {
      var luck :| CanProduce(s, luck) && s' == Produce(s, luck);
      ProduceKeeps(s, luck);
    }
  }

  lemma {:induction false} FlatEmpty(v: seq<Block>)
    requires forall j :: 0 <= j < |v| ==> InRange(v[j]) && Count(v[j]) == 0
    ensures Flat(v) == []
  {
    if v != [] {
      FlatEmpty(v[..|v| - 1]);
    }
  }

  lemma InitHasInv(s: State)
    requires Init(s)
    ensures Inv(s)
  {
    var v := View(s.blocks, s.ring);
    forall j | 0 <= j < |v| ensures IndexOk(v[j]) && SlotsOk(v[j], 0, 0) && Count(v[j]) == 0 {
      assert Empty(s.blocks[s.ring[j]]);
    }
    FlatEmpty(v[..1]);
  }

  lemma {:induction false} RunHasInv(run: seq<State>, i: nat)
    requires Run(run) && i < |run|
    ensures Inv(run[i])
  {
    hide Inv, Next, Init;
    if i == 0 {
      InitHasInv(run[0]);
    } else {
      RunHasInv(run, i - 1);
      assert NextAt(run, i - 1);
      NextKeeps(run[i - 1], run[i]);
    }
  }

  // ---------------------------------------------------------------- what the queue guarantees

  /** In the middle of an operation either thread can always take its next step: it never meets an empty slot. */
  lemma NobodyIsStuck(run: seq<State>, i: nat)
    requires Run(run) && i < |run|
    ensures CanConsume(run[i]) || run[i].cons.Idle? || run[i].cons.Returned?
    ensures CanProduce(run[i], None) || run[i].prod.Resting? || run[i].prod.Enqueued?
  {
    hide Inv, Run;
    RunHasInv(run, i);
    ConsumerReady(run[i]);
    ProducerReady(run[i]);
  }

  lemma ConsumerReady(s: State)
    requires Inv(s)
    ensures CanConsume(s) || s.cons.Idle? || s.cons.Returned?
  {
    hide Inv, ProducerOk, FlowOk;
    InvView(s);
    if s.cons.Take? {
      TakeFinds(s);
    } else if s.cons.StoreFront? {
      StoreFrontTakes(s);
    }
  }

  lemma ProducerReady(s: State)
    requires Inv(s)
    ensures CanProduce(s, None) || s.prod.Resting? || s.prod.Enqueued?
  {
    hide Inv, ConsumerOk, FlowOk;
    InvView(s);
    AheadIs(s);
    LargestOk(s);
  }

  lemma LargestOk(s: State)
    requires Inv(s)
    ensures s.largest >= 2
  {
    hide CoreOk, ConsumerOk, ProducerOk;
  }

  /** What one step may do to the abstract queue. */
  ghost predicate Fifo(s: State, s': State) {
    || s'.queue == s.queue
    || (s.prod.StoreTail? && s'.prod == Enqueued(true) && s'.queue == s.queue + [s.prod.x])
    || (s.prod.StoreTailBlock? && s'.prod == Enqueued(true) && s'.queue == s.queue + [s.prod.x])
    || (s.cons.StoreFront? && s.queue != [] && s'.cons == Returned(s.cons.m, Some(s.queue[0])) && s'.queue == s.queue[1..])
  }

  /**
    The ring of ring buffers is a FIFO queue: the store to tail, or to tailBlock when a block was changed, appends
    the element; the store to front removes the first one, and that is what the consumer returns; nothing else
    changes the queue.
  */
  lemma EveryStepIsFifo(run: seq<State>, i: nat)
    requires Run(run) && i + 1 < |run|
    ensures Fifo(run[i], run[i + 1])
  {
    hide Inv, Run, Next;
    RunHasInv(run, i);
    RunSteps(run, i);
    StepIsFifo(run[i], run[i + 1]);
  }

  lemma RunSteps(run: seq<State>, i: nat)
    requires Run(run) && i + 1 < |run|
    ensures Next(run[i], run[i + 1])
  {
    hide Next, Init;
    assert NextAt(run, i);
  }

  lemma StepIsFifo(s: State, s': State)
    requires Inv(s) && Next(s, s')
    ensures Fifo(s, s')
  {
    hide Inv;
    StoreFrontTakes(s);
  }

  /** Read from the front block to the tail block, the elements in the buffers are the abstract queue. */
  lemma BuffersHoldQueue(run: seq<State>, i: nat)
    requires Run(run) && i < |run|
    ensures Inv(run[i]) && SameItems(Flat(View(run[i].blocks, run[i].ring)[..run[i].k + 1]), run[i].cons.StoreFront?, run[i].queue)
  {
    hide Inv, Run;
    RunHasInv(run, i);
    QueueIs(run[i]);
  }

  lemma QueueIs(s: State)
    requires Inv(s)
    ensures QueueOk(View(s.blocks, s.ring), s.k, s.cons, s.queue)
  {
    hide QueueOk, DataOk, FlowOk, ConsumerOk, ProducerOk, CapacityOk;
  }

  /** The assert at line 268 (and those of peek and pop): the block the consumer goes to has an element. */
  lemma NextBlockHasElement(run: seq<State>, i: nat)
    requires Run(run) && i < |run| && run[i].cons.LoadNextTail?
    ensures run[i].cons.nb in run[i].blocks
    ensures run[i].blocks[run[i].cons.nb].front != run[i].blocks[run[i].cons.nb].tail
  {
    hide Inv, Run, ProducerOk;
    RunHasInv(run, i);
    InvView(run[i]);
    CountApart(run[i].blocks[run[i].cons.nb]);
  }

  /** The assert at line 475: the block the producer goes to is empty. */
  lemma AheadBlockIsEmpty(run: seq<State>, i: nat)
    requires Run(run) && i < |run| && run[i].prod.LoadNextFront?
    ensures run[i].tailBlock in run[i].next && run[i].next[run[i].tailBlock] in run[i].blocks
    ensures var b := run[i].blocks[run[i].next[run[i].tailBlock]]; b.front == b.tail
  {
    hide Inv, Run, ConsumerOk;
    RunHasInv(run, i);
    InvView(run[i]);
    AheadIs(run[i]);
    CountApart(run[i].blocks[run[i].next[run[i].tailBlock]]);
  }

  /** An element is only ever constructed in a slot that has none. */
  lemma WritesIntoEmptySlot(run: seq<State>, i: nat)
    requires Run(run) && i < |run| && (run[i].prod.Write? || run[i].prod.WriteNext?)
    ensures
      var id := if run[i].prod.Write? then run[i].tailBlock else run[i].prod.nb;
      && id in run[i].blocks && run[i].blocks[id].tail < |run[i].blocks[id].data|
      && run[i].blocks[id].data[run[i].blocks[id].tail] == None
  {
    hide Inv, Run, ConsumerOk, FlowOk, Dist;
    var s := run[i];
    RunHasInv(run, i);
    InvView(s);
    WriteSlotKeeps(s, if s.prod.Write? then s.k else s.k + 1, s.prod.x,
                   if s.prod.Write? then StoreTail(s.prod.x) else StoreNextTail(s.prod.x, s.prod.nb));
  }

  /** At run[h] the consumer read the tail of the front block, found the queue empty, and has not moved since. */
  ghost predicate SawEmpty(run: seq<State>, h: nat, i: nat) {
    h < i < |run| && run[h].cons.LoadTail? && run[h].queue == [] && forall g :: h < g <= i ==> run[g].cons == run[i].cons
  }

  lemma {:induction false} SeenBefore(run: seq<State>, i: nat)
    requires Run(run) && i < |run| && run[i].cons.LoadTailBlock? && run[i].cons.wasEmpty
    ensures exists h :: SawEmpty(run, h, i)
  {
    hide Run, Next;
    assert i > 0 by {
      StartsIdle(run);
    }
    RunSteps(run, i - 1);
    if run[i - 1].cons == run[i].cons {
      SeenBefore(run, i - 1);
      var h :| SawEmpty(run, h, i - 1);
      assert SawEmpty(run, h, i);
    } else {
      EmptyIsSeen(run[i - 1], run[i]);
      assert SawEmpty(run, i - 1, i);
    }
  }

  lemma StartsIdle(run: seq<State>)
    requires Run(run)
    ensures run[0].cons == Idle
  {
  }

  lemma EmptyIsSeen(s: State, s': State)
    requires Next(s, s') && s'.cons != s.cons && s'.cons.LoadTailBlock? && s'.cons.wasEmpty
    ensures s.cons.LoadTail? && s.queue == []
  {
    hide CanProduce, Produce;
    if luck :| CanProduce(s, luck) && s' == Produce(s, luck) {
      ProduceLeavesConsumer(s, luck);
    }
  }

  lemma ProduceLeavesConsumer(s: State, luck: Option<Id>)
    requires CanProduce(s, luck)
    ensures Produce(s, luck).cons == s.cons
  {
  }

  /** The consumer reports an empty queue only if the queue was empty when it read the front block's tail. */
  lemma EmptyWasTrue(run: seq<State>, i: nat)
    requires Run(run) && i + 1 < |run| && run[i].cons.LoadTailBlock? && run[i + 1].cons == Returned(run[i].cons.m, None)
    ensures exists h :: SawEmpty(run, h, i)
  {
    hide Inv, Run;
    RunHasInv(run, i);
    RunSteps(run, i);
    InvView(run[i]);
    SeenBefore(run, i);
  }

  /** peek, pop and try_dequeue act on the first element: it stays first until the consumer itself removes it. */
  lemma {:induction false} FirstStaysFirst(run: seq<State>, i: nat, j: nat)
    requires Run(run) && i <= j < |run| && run[i].queue != []
    requires forall h :: i <= h < j ==> !run[h].cons.StoreFront?
    ensures run[j].queue != [] && run[j].queue[0] == run[i].queue[0]
  {
    hide Run;
    if i < j {
      FirstStaysFirst(run, i, j - 1);
      EveryStepIsFifo(run, j - 1);
    }
  }

  /** What peek returned at run[i] is what the next removal, by pop or try_dequeue, removes and returns. */
  lemma PeekedIsRemoved(run: seq<State>, i: nat, j: nat)
    requires Run(run) && i < j < |run| - 1 && run[i].cons.Take? && run[i].cons.m.Peek?
    requires run[i + 1].cons.Returned? && run[i + 1].cons.m.Peek?
    requires run[j].cons.StoreFront? && forall h :: i <= h < j ==> !run[h].cons.StoreFront?
    ensures run[i + 1].cons.result == Some(run[j].cons.v) && run[j].queue != [] && run[j].cons.v == run[j].queue[0]
  {
    hide Inv, Run, Next;
    RunHasInv(run, i);
    RunSteps(run, i);
    TakeFinds(run[i]);
    PeekReturns(run[i], run[i + 1]);
    FirstStaysFirst(run, i, j);
    RunHasInv(run, j);
    StoreFrontTakes(run[j]);
  }

  lemma PeekReturns(s: State, s': State)
    requires Next(s, s') && s.cons.Take? && s.cons.m.Peek? && s'.cons.Returned?
    requires s.cons.b in s.blocks && s.cons.i < |s.blocks[s.cons.b].data|
    ensures s'.cons.result == s.blocks[s.cons.b].data[s.cons.i] && s'.queue == s.queue
  {
    hide CanProduce, Produce;
    if luck :| CanProduce(s, luck) && s' == Produce(s, luck) {
      ProduceLeavesConsumer(s, luck);
    }
  }

  // ---------------------------------------------------------------- capacity

  lemma {:induction false} FlatLength(v: seq<Block>)
    requires v != [] && IndicesOk(v) && forall j :: 1 <= j < |v| ==> Full(v[j])
    ensures |Flat(v)| >= Total(Rooms(v)) - Rooms(v)[0]
  {
    hide Held, Dist;
    var n := |v| - 1;
    assert Rooms(v)[..n] == Rooms(v[..n]);
    if n > 0 {
      FlatLength(v[..n]);
      assert |Held(v[n])| == Rooms(v)[n];
    }
  }

  /** At run[h] the producer read `front` of its block and found the block full; it has not moved since. */
  ghost predicate SawFull(run: seq<State>, h: nat, i: nat) {
    && h < i < |run| && run[h].prod.LoadFront? && run[i].prod.LoadFrontBlock? && |run[h].queue| == run[i].prod.seen
    && forall g :: h < g <= i ==> run[g].prod == run[i].prod
  }

  lemma {:induction false} FullBefore(run: seq<State>, i: nat)
    requires Run(run) && i < |run| && run[i].prod.LoadFrontBlock?
    ensures exists h :: SawFull(run, h, i)
  {
    hide Run, Next;
    assert i > 0 by {
      StartsResting(run);
    }
    RunSteps(run, i - 1);
    if run[i - 1].prod == run[i].prod {
      FullBefore(run, i - 1);
      var h :| SawFull(run, h, i - 1);
      assert SawFull(run, h, i);
    } else {
      FullIsSeen(run[i - 1], run[i]);
      assert SawFull(run, i - 1, i);
    }
  }

  lemma StartsResting(run: seq<State>)
    requires Run(run)
    ensures run[0].prod == Resting
  {
  }

  lemma FullIsSeen(s: State, s': State)
    requires Next(s, s') && s'.prod != s.prod && s'.prod.LoadFrontBlock?
    ensures s.prod.LoadFront? && |s.queue| == s'.prod.seen
  {
    hide CanConsume, Consume;
    if CanConsume(s) && s' == Consume(s) {
      ConsumeLeavesProducer(s);
    }
  }

  lemma ConsumeLeavesProducer(s: State)
    requires CanConsume(s)
    ensures Consume(s).prod == s.prod
  {
  }

  /** How many elements the consumer removes from run[h] to run[i]. */
  ghost function Removals(run: seq<State>, h: nat, i: nat): nat
    requires h <= i < |run|
    decreases i - h
  {
    if h == i then 0
    else Removals(run, h, i - 1) + (if run[i - 1].cons.StoreFront? && !run[i].cons.StoreFront? then 1 else 0)
  }

  /** While the producer stands still, the queue only loses what the consumer removes. */
  lemma {:induction false} OnlyRemovals(run: seq<State>, h: nat, i: nat)
    requires Run(run) && h <= i < |run| && forall g :: h <= g <= i ==> run[g].prod == run[h].prod
    requires !run[h].prod.StoreTail? && !run[h].prod.StoreTailBlock?
    ensures Removals(run, h, i) <= |run[h].queue| && run[i].queue == run[h].queue[Removals(run, h, i)..]
  {
    hide Run, Next, Inv;
    if h < i {
      OnlyRemovals(run, h, i - 1);
      RunSteps(run, i - 1);
      RunHasInv(run, i - 1);
      StepRemoves(run[i - 1], run[i]);
    }
  }

  lemma StepRemoves(s: State, s': State)
    requires Inv(s) && Next(s, s') && s'.prod == s.prod && !s.prod.StoreTail? && !s.prod.StoreTailBlock?
    ensures
      if s.cons.StoreFront? && !s'.cons.StoreFront? then s.queue != [] && s'.queue == s.queue[1..]
      else s'.queue == s.queue
  {
    hide Inv, CanConsume, CanProduce;
    if CanConsume(s) && s' == Consume(s) {
      ConsumeRemoves(s);
    } else if luck :| CanProduce(s, luck) && s' == Produce(s, luck) {
      ProduceMoves(s, luck);
    }
  }

  lemma ConsumeRemoves(s: State)
    requires CanConsume(s)
    ensures
      if s.cons.StoreFront? then
        s.queue != [] && Consume(s).queue == s.queue[1..] && !Consume(s).cons.StoreFront?
      else Consume(s).queue == s.queue
  {
  }

  lemma ProduceMoves(s: State, luck: Option<Id>)
    requires CanProduce(s, luck) && !s.prod.StoreTail? && !s.prod.StoreTailBlock?
    ensures Produce(s, luck).queue == s.queue && Produce(s, luck).cons == s.cons
  {
  }

  /**
    try_enqueue fails only if at least as many elements as the queue was made for were in it at some moment of the call:
    when it found no free block ahead, or, with a single block, when it found that block full. At the refusal itself the
    queue holds less exactly if it has a single block and the consumer has removed enough elements since.
  */
  lemma RefusedOnlyWhenFull(run: seq<State>, i: nat)
    requires Run(run) && i + 1 < |run| && run[i].prod.LoadFrontBlock? && run[i + 1].prod == Enqueued(false)
    ensures exists h: nat :: SawFull(run, h, i)
    ensures forall h: nat :: SawFull(run, h, i) ==> |run[if |run[i].ring| == 1 then h else i].queue| >= run[i].capacity
    ensures forall h: nat :: SawFull(run, h, i) ==>
              (|run[i].queue| < run[i].capacity <==>
               |run[i].ring| == 1 && |run[h].queue| - Removals(run, h, i) < run[i].capacity)
  {
    hide Inv, Run, Removals;
    RunHasInv(run, i);
    RunSteps(run, i);
    RefusedState(run[i]);
    FullBefore(run, i);
    forall h: nat | SawFull(run, h, i) ensures |run[i].queue| == |run[h].queue| - Removals(run, h, i) {
      RefusedQueue(run, h, i);
    }
  }

  lemma RefusedQueue(run: seq<State>, h: nat, i: nat)
    requires Run(run) && SawFull(run, h, i)
    ensures |run[i].queue| == |run[h].queue| - Removals(run, h, i)
  {
    hide Run, Next, Inv;
    RunSteps(run, h);
    RunHasInv(run, h);
    OnlyRemovals(run, h + 1, i);
    FirstStepRemoves(run[h], run[h + 1]);
    RemovalsFrom(run, h, i);
  }

  lemma FirstStepRemoves(s: State, s': State)
    requires Next(s, s') && s.prod.LoadFront? && s'.prod.LoadFrontBlock?
    ensures s'.queue == s.queue && s'.cons == s.cons
  {
    hide CanConsume, Consume;
    if CanConsume(s) && s' == Consume(s) {
      ConsumeLeavesProducer(s);
    }
  }

  lemma {:induction false} RemovalsFrom(run: seq<State>, h: nat, i: nat)
    requires h < i < |run| && run[h + 1].cons == run[h].cons
    ensures Removals(run, h, i) == Removals(run, h + 1, i)
    decreases i - h
  {
    if h + 1 < i {
      RemovalsFrom(run, h, i - 1);
    } else {
      assert Removals(run, h, h) == 0;
    }
  }

  lemma RefusedState(s: State)
    requires Inv(s) && s.prod.LoadFrontBlock? && s.tailBlock in s.next && s.next[s.tailBlock] == s.frontBlock
    ensures |s.queue| >= s.capacity || (|s.ring| == 1 && s.prod.seen >= s.capacity)
  {
    hide Inv, ConsumerOk, Dist;
    InvView(s);
    AheadIs(s);
    QueueIs(s);
    CapacityIs(s);
    var v := View(s.blocks, s.ring);
    if |v| > 1 {
      assert v[..s.k + 1] == v;
      forall j | 1 <= j < |v| ensures Full(v[j]) {
        assert j < s.k || j == s.k;
      }
      FlatLength(v);
    }
  }

  lemma CapacityIs(s: State)
    requires Inv(s)
    ensures IndicesOk(View(s.blocks, s.ring)) && CapacityOk(View(s.blocks, s.ring), s.largest, s.capacity, s.prod, s.blocks)
  {
    hide QueueOk, DataOk, FlowOk, ConsumerOk, ProducerOk, CapacityOk;
  }
}
