/** What a call of the consumer and of the producer comes to. */
module SpscCalls {
  import opened Wrappers
  import opened Spsc
  import opened SpscConsumer
  import opened SpscProducer
  import opened SpscRuns

  // ---------------------------------------------------------------- what a call comes to

  predicate Consuming(c: Consumer) {
    !c.Idle? && !c.Returned?
  }

  predicate Producing(p: Producer) {
    !p.Resting? && !p.Enqueued?
  }

  /** From run[i] to run[j] the consumer carries out one call: try_dequeue, peek or pop. */
  ghost predicate ConsumerCalls(run: seq<State>, i: nat, j: nat, m: Mode) {
    && i + 1 < j < |run| && !Consuming(run[i].cons) && run[i + 1] == run[i].(cons := Start(m))
    && (forall k :: i < k < j ==> Consuming(run[k].cons)) && run[j].cons.Returned?
  }

  /** From run[i] to run[j] the producer carries out one call: enqueue, if it may allocate, or try_enqueue. */
  ghost predicate ProducerCalls(run: seq<State>, i: nat, j: nat, x: Item, alloc: bool) {
    && i + 1 < j < |run| && !Producing(run[i].prod) && run[i + 1] == run[i].(prod := Begin(x, alloc))
    && (forall k :: i < k < j ==> Producing(run[k].prod)) && run[j].prod.Enqueued?
  }

  /** How many steps make the queue shorter, and how many longer. */
  ghost function Losses(run: seq<State>, i: nat, j: nat): nat
    requires i <= j < |run|
    decreases j - i
  {
    if i == j then 0 else Losses(run, i, j - 1) + (if |run[j].queue| < |run[j - 1].queue| then 1 else 0)
  }

  ghost function Gains(run: seq<State>, i: nat, j: nat): nat
    requires i <= j < |run|
    decreases j - i
  {
    if i == j then 0 else Gains(run, i, j - 1) + (if |run[j].queue| > |run[j - 1].queue| then 1 else 0)
  }

  function ModeOf(c: Consumer): Mode
    requires !c.Idle?
  {
    c.m
  }

  /** The consumer keeps its mode, and changes the queue only as it returns from a try_dequeue or pop. */
  ghost predicate ConsumesWell(s: State, s': State) {
    && Consuming(s.cons) && !s'.cons.Idle? && ModeOf(s'.cons) == ModeOf(s.cons)
    && (!s'.cons.Returned? ==> |s'.queue| >= |s.queue|)
    && (s'.cons.Returned? ==>
          match s'.cons.result
          case None => s.cons.LoadTailBlock? && s'.queue == s.queue
          case Some(v) =>
            s.queue != [] && v == s.queue[0] && s'.queue == if s.cons.m.Peek? then s.queue else s.queue[1..])
  }

  lemma ConsumerActs(s: State)
    requires Inv(s) && CanConsume(s)
    ensures ConsumesWell(s, Consume(s))
  {
    hide Inv, Consume;
    if s.cons.Take? {
      TakeFinds(s);
      TakeActs(s);
    } else if s.cons.StoreFront? {
      StoreFrontTakes(s);
      InvView(s);
      StoreFrontActs(s);
    } else {
      LooksAct(s);
    }
  }

  lemma TakeActs(s: State)
    requires CanConsume(s) && s.cons.Take?
    requires s.queue != [] && s.blocks[s.cons.b].data[s.cons.i] == Some(s.queue[0])
    ensures ConsumesWell(s, Consume(s))
  {
  }

  lemma StoreFrontActs(s: State)
    requires CanConsume(s) && s.cons.StoreFront? && s.queue != [] && s.queue[0] == s.cons.v && s.cons.m != Peek
    ensures ConsumesWell(s, Consume(s))
  {
  }

  lemma LooksAct(s: State)
    requires CanConsume(s) && !s.cons.Take? && !s.cons.StoreFront?
    ensures ConsumesWell(s, Consume(s))
  {
  }

  lemma ConsumerGoesOn(s: State, s': State)
    requires Inv(s) && Next(s, s') && Consuming(s.cons)
    ensures ConsumesWell(s, s')
  {
    hide Inv, CanConsume, Consume, CanProduce, Produce;
    if CanConsume(s) && s' == Consume(s) {
      ConsumerActs(s);
    } else if luck :| CanProduce(s, luck) && s' == Produce(s, luck) {
      ProduceLeavesConsumer(s, luck);
      ProduceAdds(s, luck);
    }
  }

  lemma ProduceAdds(s: State, luck: Option<Id>)
    requires CanProduce(s, luck)
    ensures |Produce(s, luck).queue| >= |s.queue|
  {
  }

  lemma {:induction false} ConsumerSoFar(run: seq<State>, i: nat, k: nat, m: Mode)
    requires Run(run) && i < k < |run| && run[i + 1] == run[i].(cons := Start(m))
    requires forall g :: i < g <= k ==> Consuming(run[g].cons)
    ensures Consuming(run[k].cons) && ModeOf(run[k].cons) == m && Losses(run, i, k) == 0
  {
    hide Run, Next, Inv;
    if k == i + 1 {
      assert Losses(run, i, i) == 0;
    } else {
      ConsumerSoFar(run, i, k - 1, m);
      RunHasInv(run, k - 1);
      RunSteps(run, k - 1);
      ConsumerGoesOn(run[k - 1], run[k]);
    }
  }

  ghost predicate WasEmpty(run: seq<State>, i: nat, j: nat) {
    exists h :: i < h < j && h < |run| && run[h].queue == []
  }

  /**
    A call of the consumer does what was asked: a try_dequeue or pop that succeeds removes exactly one element, the first
    of the queue, as it returns; a peek removes none and returns the first; either fails only if the queue was empty at
    some moment of the call, and removes nothing then.
  */
  lemma ConsumerCall(run: seq<State>, i: nat, j: nat, m: Mode)
    requires Run(run) && ConsumerCalls(run, i, j, m)
    ensures run[j].cons.m == m
    ensures
      match run[j].cons.result
      case None => Losses(run, i, j) == 0 && WasEmpty(run, i, j)
      case Some(v) =>
        && run[j - 1].queue != [] && run[j - 1].queue[0] == v
        && if m.Peek? then Losses(run, i, j) == 0 && run[j].queue == run[j - 1].queue
           else Losses(run, i, j) == 1 && run[j].queue == run[j - 1].queue[1..]
  {
    hide Run, Next, Inv;
    ConsumerSoFar(run, i, j - 1, m);
    RunHasInv(run, j - 1);
    RunSteps(run, j - 1);
    ConsumerGoesOn(run[j - 1], run[j]);
    if run[j].cons.result.None? {
      EmptyWasTrue(run, j - 1);
      var h: nat :| SawEmpty(run, h, j - 1);
      assert i < h < j && run[h].queue == [];
    }
  }

  // ---------------------------------------------------------------- a call of the producer

  function ItemOf(p: Producer): Item
    requires Producing(p)
  {
    p.x
  }

  /** Where the producer stands fits whether it may allocate. */
  predicate Allowed(p: Producer, alloc: bool) {
    match p
    case Begin(_, a) => a == alloc
    case LoadFront(_, a) => a == alloc
    case LoadFrontBlock(_, a, _) => a == alloc
    case Allocate(_) => alloc
    case LinkNew(_, _) => alloc
    case _ => true
  }

  /** However the step is explained, no memory was to be had in it. */
  ghost predicate NoMemory(s: State, s': State) {
    s.prod.Allocate? && forall luck :: CanProduce(s, luck) && s' == Produce(s, luck) ==> luck.None?
  }

  /** The producer keeps its element, and appends it as it returns, or gives up for a reason. */
  ghost predicate ProducesWell(s: State, s': State, alloc: bool) {
    && Producing(s.prod) && !s'.prod.Resting? && Allowed(s'.prod, alloc)
    && (Producing(s'.prod) ==> ItemOf(s'.prod) == ItemOf(s.prod) && |s'.queue| <= |s.queue|)
    && (s'.prod.Enqueued? ==>
          if s'.prod.ok then s'.queue == s.queue + [ItemOf(s.prod)]
          else s'.queue == s.queue && if alloc then NoMemory(s, s') else s.prod.LoadFrontBlock?)
  }

  lemma ProducerActs(s: State, luck: Option<Id>, alloc: bool)
    requires CanProduce(s, luck) && Allowed(s.prod, alloc)
    ensures ProducesWell(s, Produce(s, luck), alloc)
  {
    hide NoMemory;
    if s.prod.Allocate? {
      AllocateActs(s, luck);
    }
  }

  lemma AllocateActs(s: State, luck: Option<Id>)
    requires CanProduce(s, luck) && s.prod.Allocate?
    ensures Produce(s, luck).prod.Enqueued? ==> NoMemory(s, Produce(s, luck))
  {
  }

  lemma ProducerGoesOn(s: State, s': State, alloc: bool)
    requires Next(s, s') && Producing(s.prod) && Allowed(s.prod, alloc)
    ensures ProducesWell(s, s', alloc)
  {
    hide CanConsume, Consume, CanProduce, Produce, NoMemory;
    if CanConsume(s) && s' == Consume(s) {
      ConsumeLeavesProducer(s);
      ConsumeRemovesAtMost(s);
    } else if luck :| CanProduce(s, luck) && s' == Produce(s, luck) {
      ProducerActs(s, luck, alloc);
    }
  }

  lemma ConsumeRemovesAtMost(s: State)
    requires CanConsume(s)
    ensures |Consume(s).queue| <= |s.queue|
  {
  }

  lemma {:induction false} ProducerSoFar(run: seq<State>, i: nat, k: nat, x: Item, alloc: bool)
    requires Run(run) && i < k < |run| && run[i + 1] == run[i].(prod := Begin(x, alloc))
    requires forall g :: i < g <= k ==> Producing(run[g].prod)
    ensures Producing(run[k].prod) && Allowed(run[k].prod, alloc) && ItemOf(run[k].prod) == x && Gains(run, i, k) == 0
  {
    hide Run, Next;
    if k == i + 1 {
      assert Gains(run, i, i) == 0;
    } else {
      ProducerSoFar(run, i, k - 1, x, alloc);
      RunSteps(run, k - 1);
      ProducerGoesOn(run[k - 1], run[k], alloc);
    }
  }

  lemma ConsumeLeavesRest(s: State)
    requires CanConsume(s)
    ensures Consume(s).capacity == s.capacity && Consume(s).tailBlock == s.tailBlock && Consume(s).next == s.next
    ensures Consume(s).largest == s.largest
  {
  }

  lemma {:induction false} CapacityStays(run: seq<State>, i: nat, j: nat)
    requires Run(run) && i <= j < |run|
    ensures run[j].capacity == run[i].capacity
  {
    hide Run, Next;
    if i < j {
      CapacityStays(run, i, j - 1);
      RunSteps(run, j - 1);
      CapacityKept(run[j - 1], run[j]);
    }
  }

  lemma CapacityKept(s: State, s': State)
    requires Next(s, s')
    ensures s'.capacity == s.capacity
  {
    hide CanConsume, Consume, CanProduce, Produce;
    if CanConsume(s) && s' == Consume(s) {
      ConsumeLeavesRest(s);
    } else if luck :| CanProduce(s, luck) && s' == Produce(s, luck) {
      ProduceLeavesCapacity(s, luck);
    }
  }

  lemma ProduceLeavesCapacity(s: State, luck: Option<Id>)
    requires CanProduce(s, luck)
    ensures Produce(s, luck).capacity == s.capacity
  {
  }

  ghost predicate HeldCapacity(run: seq<State>, i: nat, j: nat) {
    exists h :: i < h < j && h < |run| && |run[h].queue| >= run[h].capacity
  }

  /**
    A call of the producer that succeeds appends the element it was given, once, as it returns. One that fails appends
    nothing: an enqueue fails only when no memory can be had, a try_enqueue only if the queue held as many elements as it
    was made for at some moment of the call.
  */
  lemma ProducerCall(run: seq<State>, i: nat, j: nat, x: Item, alloc: bool)
    requires Run(run) && ProducerCalls(run, i, j, x, alloc)
    ensures
      if run[j].prod.ok then Gains(run, i, j) == 1 && run[j].queue == run[j - 1].queue + [x]
      else Gains(run, i, j) == 0 && if alloc then NoMemory(run[j - 1], run[j]) else HeldCapacity(run, i, j)
  {
    hide Run, Next, NoMemory, Removals;
    ProducerSoFar(run, i, j - 1, x, alloc);
    RunSteps(run, j - 1);
    ProducerGoesOn(run[j - 1], run[j], alloc);
    if !run[j].prod.ok && !alloc {
      RefusedOnlyWhenFull(run, j - 1);
      var h: nat :| SawFull(run, h, j - 1);
      assert i < h;
      var g := if |run[j - 1].ring| == 1 then h else j - 1;
      CapacityStays(run, h, j - 1);
      assert i < g < j && |run[g].queue| >= run[g].capacity;
    }
  }
}
