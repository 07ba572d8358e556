/**
  What the queue of one producer guarantees for items and for blocks: first in, first out, exactly once, and no block is
  given away before it is read.
*/
module ImplicitOrder {
  import opened Blocks
  import T = Tickets
  import X = BlockIndex
  import opened ImplicitQueue
  import opened ImplicitConsumers
  import opened ImplicitBlocks
  import opened ImplicitProducers
  import opened ImplicitRuns

  // ---------------------------------------------------------------- first in, first out, exactly once

  /** The items that are published and not claimed. */
  function Contents(s: State): seq<Item>
    requires s.q.sh.head <= s.q.sh.tail <= |s.history|
  {
    s.history[s.q.sh.head..s.q.sh.tail]
  }

  lemma RunContents(run: seq<State>, i: nat)
    requires Run(run) && i < |run|
    ensures run[i].q.sh.head <= run[i].q.sh.tail == |run[i].history|
  {
    hide Inv, Run;
    RunHasInv(run, i);
    InvIndices(Indexed(run[i]));
  }

  /** What one step may do to the queue that a user sees. */
  ghost predicate Fifo(s: State, s': State)
    requires s.q.sh.head <= s.q.sh.tail <= |s.history| && s'.q.sh.head <= s'.q.sh.tail <= |s'.history|
  {
    || Contents(s') == Contents(s)
    || (s.prod.StoreIndex? && s'.prod.Ready? && Contents(s') == Contents(s) + s.todo)
    || (exists t :: Dequeues(s, s', t))
  }

  ghost predicate Dequeues(s: State, s': State, t: Thread)
    requires s.q.sh.head <= s.q.sh.tail <= |s.history| && s'.q.sh.head <= s'.q.sh.tail <= |s'.history|
  {
    && t in s.q.pc && s.q.pc[t].AddHead? && t in s'.q.pc && s'.q.pc[t].Claimed?
    && s'.history == s.history && s'.q.sh.tail == s.q.sh.tail && s'.q.pc[t].got == s.q.pc[t].got
    && var first, got := s'.q.pc[t].first, s'.q.pc[t].got;
    first == s.q.sh.head && first + got <= |s.history| && s.history[first..first + got] + Contents(s') == Contents(s)
  }

  /**
    The queue is a FIFO queue: storing tailIndex appends the whole call's items, adding to headIndex takes that many
    from the front for the one consumer that did it, and no other step changes the contents.
  */
  lemma EveryStepIsFifo(run: seq<State>, i: nat)
    requires Run(run) && i + 1 < |run|
    ensures run[i].q.sh.head <= run[i].q.sh.tail <= |run[i].history|
    ensures run[i + 1].q.sh.head <= run[i + 1].q.sh.tail <= |run[i + 1].history|
    ensures Fifo(run[i], run[i + 1])
  {
    hide Inv, Run, Next, NextAt, Fifo, Contents;
    RunContents(run, i);
    RunContents(run, i + 1);
    RunHasInv(run, i);
    IndexedSteps(run, i);
    StepIsFifo(Indexed(run[i]), Indexed(run[i + 1]));
    IndexedFifo(run[i], run[i + 1]);
  }

  lemma IndexedFifo(s: State, s': State)
    requires s.q.sh.head <= s.q.sh.tail <= |s.history| && s'.q.sh.head <= s'.q.sh.tail <= |s'.history|
    requires Fifo(Indexed(s), Indexed(s'))
    ensures Fifo(s, s')
  {
    hide Contents, Dequeues, Indexed;
    IndexedSame(s);
    IndexedSame(s');
    if t :| Dequeues(Indexed(s), Indexed(s'), t) {
      IndexedDequeues(s, s', t);
    }
  }

  lemma IndexedSame(s: State)
    ensures var r := Indexed(s);
            && r.q == s.q && r.history == s.history && r.prod == s.prod && r.todo == s.todo
            && (s.q.sh.head <= s.q.sh.tail <= |s.history| ==> Contents(r) == Contents(s))
  {
  }

  lemma IndexedDequeues(s: State, s': State, t: Thread)
    requires s.q.sh.head <= s.q.sh.tail <= |s.history| && s'.q.sh.head <= s'.q.sh.tail <= |s'.history|
    requires Indexed(s).q == s.q && Indexed(s').q == s'.q && Indexed(s).history == s.history
    requires Indexed(s').history == s'.history && Dequeues(Indexed(s), Indexed(s'), t)
    ensures Dequeues(s, s', t)
  {
    hide Indexed;
  }

  lemma RunSteps(run: seq<State>, i: nat)
    requires Run(run) && i + 1 < |run|
    ensures NextAt(run, i) && T.Timely(run[i].q) && Next(run[i], run[i + 1])
  {
    hide Next, T.Timely, Init;
    assert NextAt(run, i);
  }

  lemma IndexedSteps(run: seq<State>, i: nat)
    requires Run(run) && i + 1 < |run|
    ensures T.Timely(run[i].q) && Inv(Indexed(run[i])) && Next(Indexed(run[i]), Indexed(run[i + 1]))
  {
    hide Inv, Run, Next, T.Timely, Stranded;
    RunSteps(run, i);
    RunHasInv(run, i);
    RunHasInv(run, i + 1);
    if run[0].ix == X.NO_INDEX {
      NoIndex(run[i]);
      InvIndices(Indexed(run[i]));
      StrandedNext(run[i], run[i + 1]);
    }
  }

  lemma StepIsFifo(s: State, s': State)
    requires Inv(s) && Next(s, s')
    requires s.q.sh.head <= s.q.sh.tail == |s.history| && s'.q.sh.head <= s'.q.sh.tail == |s'.history|
    ensures Fifo(s, s')
  {
    hide Inv, Next, T.Inv, Stays, Publishes, Claims, Fifo, Contents;
    StepHasEffect(s, s');
    if Stays(s, s') {
      StaysIsFifo(s, s');
    } else if Publishes(s, s') {
      PublishIsFifo(s, s');
    } else {
      var t :| Claims(s, s', t);
      ClaimIsFifo(s, s', t);
    }
  }

  lemma StaysIsFifo(s: State, s': State)
    requires Stays(s, s') && s.q.sh.head <= s.q.sh.tail == |s.history|
    ensures Fifo(s, s')
  {
  }

  lemma PublishIsFifo(s: State, s': State)
    requires Publishes(s, s') && s.q.sh.head <= s.q.sh.tail == |s.history|
    ensures Fifo(s, s')
  {
    assert Contents(s') == Contents(s) + s.todo;
  }

  lemma ClaimIsFifo(s: State, s': State, t: Thread)
    requires Claims(s, s', t) && s.q.sh.head <= s.q.sh.tail == |s.history| && s'.q.sh.head <= s'.q.sh.tail
    ensures Fifo(s, s')
  {
    assert s.history[s.q.sh.head..s'.q.sh.head] + Contents(s') == Contents(s);
    assert Dequeues(s, s', t);
  }

  /** What a step does to published and delivered items, and to the counters. */
  ghost predicate Effect(s: State, s': State) {
    Stays(s, s') || Publishes(s, s') || exists t :: Claims(s, s', t)
  }

  ghost predicate Stays(s: State, s': State) {
    && s'.history == s.history && s'.q.sh.head == s.q.sh.head && s'.q.sh.tail == s.q.sh.tail
    && s'.tailBlock == s.tailBlock && (s.prod.Ready? || s'.todo == s.todo)
    && StillDelivered(s.delivered, s'.delivered) && OnlyLeave(First(s), s.ix.live, s'.ix.live)
  }

  ghost predicate StillDelivered(delivered: map<nat, Item>, delivered': map<nat, Item>) {
    forall k :: k in delivered ==> k in delivered' && delivered'[k] == delivered[k]
  }

  /** Among the first f blocks none is added or exchanged. */
  ghost predicate OnlyLeave(f: nat, live: map<nat, BlockId>, live': map<nat, BlockId>) {
    forall n :: n in live' && n < f ==> n in live && live'[n] == live[n]
  }

  ghost predicate Publishes(s: State, s': State) {
    && s.prod.StoreIndex? && s'.prod.Ready? && s'.history == s.history + s.todo && s'.q.sh.head == s.q.sh.head
    && s'.q.sh.tail == s.q.sh.tail + |s.todo| && s'.delivered == s.delivered && s'.ix == s.ix && s'.todo == s.todo
  }

  ghost predicate Claims(s: State, s': State, t: Thread) {
    && t in s.q.pc && s.q.pc[t].AddHead? && t in s'.q.pc && s'.q.pc[t] == T.Claimed(s.q.sh.head, s.q.pc[t].got)
    && s'.history == s.history && s'.q.sh.tail == s.q.sh.tail && s'.q.sh.head == s.q.sh.head + s.q.pc[t].got
    && s'.delivered == s.delivered && s'.ix == s.ix && s'.tailBlock == s.tailBlock && s'.todo == s.todo && s'.prod == s.prod
  }

  lemma StepHasEffect(s: State, s': State)
    requires Inv(s) && Next(s, s')
    ensures Effect(s, s')
  {
    hide Inv, CanProduce, Produce, CanConsume, Consume, Elsewhere, Ticket, Call, T.Call, Effect;
    if items :| s.prod == Ready && s' == Call(s, items) {
      CallEffect(s, items);
    } else if luck :| s.prod != Ready && CanProduce(s, luck) && s' == Produce(s, luck) {
      ProduceEffect(s, luck);
    } else if t, max: nat :| t in s.q.pc && s.q.pc[t] == T.Idle && max > 0 && s' == s.(q := T.Call(s.q, t, max)) {
      DequeueCallEffect(s, t, max);
    } else if t :| t in s.q.pc && !s.q.pc[t].Claimed? && s' == Ticket(s, t) {
      TicketEffect(s, t);
    } else if t :| CanConsume(s, t) && s' == Consume(s, t) {
      ConsumeEffect(s, t);
    } else {
      ElsewhereEffect(s, s');
    }
  }

  lemma CallEffect(s: State, items: seq<Item>)
    requires s.prod == Ready
    ensures Effect(s, Call(s, items))
  {
  }

  lemma ElsewhereEffect(s: State, s': State)
    requires Elsewhere(s, s')
    ensures Effect(s, s')
  {
  }

  lemma DequeueCallEffect(s: State, t: Thread, max: nat)
    ensures Effect(s, s.(q := T.Call(s.q, t, max)))
  {
  }

  lemma TicketEffect(s: State, t: Thread)
    requires t in s.q.pc && !s.q.pc[t].Claimed?
    ensures Effect(s, Ticket(s, t))
  {
    hide T.Step;
    TicketActs(s.q, t);
    assert s.q.pc[t].AddHead? ==> Claims(s, Ticket(s, t), t);
  }

  /** Only the step that stores tailIndex makes new history, and it stores everything that was written. */
  lemma ProduceEffect(s: State, luck: Luck)
    requires Inv(s) && CanProduce(s, luck)
    ensures Effect(s, Produce(s, luck))
  {
    hide Inv, X.Shape, ProducerOk, ProducingOk;
    InvProducer(s);
    if s.prod.StoreIndex? {
      FilledAll(s);
    } else {
      if s.prod.StoreValue? {
        assert ProducingOk(s.prod, s.q.sh.tail, |s.todo|, s.ix, s.chain, s.count, s.role) by {
          InvProducing(s);
        }
        StoringAbove(s);
      }
      ProduceStays(s, luck);
    }
  }

  lemma ProduceStays(s: State, luck: Luck)
    requires CanProduce(s, luck) && !s.prod.StoreIndex? && (s.prod.StoreValue? ==> s.ix.next > First(s))
    ensures Stays(s, Produce(s, luck))
  {
    hide X.Shape, Produce, CanProduce, OnlyLeave, First;
    ProduceLeaves(s, luck);
    if s.prod.UndoValue? || s.prod.UndoTail? || s.prod.UndoFree? || s.prod.Write? || s.prod.Ready? || s.prod.RewindTail?
       || s.prod.DropValue? {
      RevertStays(s, luck);
    } else {
      AdvanceStays(s, luck);
    }
  }

  predicate SameButBlocks(s: State, s': State) {
    && s'.history == s.history && s'.q == s.q && s'.tailBlock == s.tailBlock && s'.todo == s.todo
    && s'.delivered == s.delivered
  }

  lemma RevertStays(s: State, luck: Luck)
    requires CanProduce(s, luck)
    requires s.prod.UndoValue? || s.prod.UndoTail? || s.prod.UndoFree? || s.prod.Write? || s.prod.Ready? || s.prod.RewindTail?
             || s.prod.DropValue?
    ensures SameButBlocks(s, Produce(s, luck))
  {
    hide X.Shape, X.Rewind, X.DropValue, X.ClearValue, BlocksFor, NewEntry, UndoEntry, BlockFor, UndoKey, First;
  }

  lemma AdvanceStays(s: State, luck: Luck)
    requires CanProduce(s, luck)
    requires s.prod.LoadHead? || s.prod.TestSlot? || s.prod.StoreKey? || s.prod.StoreTail? || s.prod.Requisition?
             || s.prod.ResetCount? || s.prod.StoreValue?
    ensures SameButBlocks(s, Produce(s, luck))
  {
    hide X.Shape, X.StoreKey, X.StoreTail, X.StoreValue, X.Grow, BlocksFor, Full, NewEntry, TailEntry, First, X.SlotFree;
  }

  lemma ProduceLeaves(s: State, luck: Luck)
    requires CanProduce(s, luck) && (s.prod.StoreValue? ==> s.ix.next > First(s))
    ensures OnlyLeave(First(s), s.ix.live, Produce(s, luck).ix.live)
  {
    hide CanProduce, Produce, First, X.Shape;
    ProduceLive(s, luck);
  }

  lemma ProduceLive(s: State, luck: Luck)
    requires CanProduce(s, luck)
    ensures
      var live' := Produce(s, luck).ix.live;
      if s.prod.StoreValue? then s.ix.next > 0 && live' == s.ix.live[s.ix.next - 1 := s.prod.id]
      else if s.prod.UndoValue? then live' == s.ix.live - {s.prod.k}
      else live' == s.ix.live
  {
    hide X.Shape, Produce;
    if s.prod.StoreValue? || s.prod.UndoValue? {
      ValueChangesLive(s, luck);
    } else if s.prod.TestSlot? {
      TestKeepsLive(s, luck);
    } else if s.prod.RewindTail? || s.prod.DropValue? || s.prod.UndoTail? || s.prod.UndoFree? || s.prod.StoreIndex? {
      RevertKeepsLive(s, luck);
    } else {
      AdvanceKeepsLive(s, luck);
    }
  }

  lemma ValueChangesLive(s: State, luck: Luck)
    requires CanProduce(s, luck) && (s.prod.StoreValue? || s.prod.UndoValue?)
    ensures
      Produce(s, luck).ix.live ==
      if s.prod.StoreValue? then s.ix.live[s.ix.next - 1 := s.prod.id] else s.ix.live - {s.prod.k}
  {
    hide X.Shape, X.StoreValue, X.ClearValue, BlocksFor, First;
  }

  lemma TestKeepsLive(s: State, luck: Luck)
    requires CanProduce(s, luck) && s.prod.TestSlot?
    ensures Produce(s, luck).ix.live == s.ix.live
  {
    hide X.Shape, X.Grow, X.SlotFree, BlocksFor, NewEntry, First;
  }

  lemma RevertKeepsLive(s: State, luck: Luck)
    requires CanProduce(s, luck)
    requires s.prod.RewindTail? || s.prod.DropValue? || s.prod.UndoTail? || s.prod.UndoFree? || s.prod.StoreIndex?
    ensures Produce(s, luck).ix.live == s.ix.live
  {
    hide X.Shape, X.StoreKey, X.StoreTail, X.StoreValue, X.Rewind, X.DropValue, X.ClearValue, X.Grow, BlocksFor, Full,
      NewEntry, TailEntry, UndoEntry, BlockFor, UndoKey, First, X.SlotFree, EndBlock;
  }

  lemma AdvanceKeepsLive(s: State, luck: Luck)
    requires CanProduce(s, luck)
    requires s.prod.Ready? || s.prod.LoadHead? || s.prod.StoreKey? || s.prod.StoreTail? || s.prod.Requisition?
             || s.prod.ResetCount? || s.prod.Write?
    ensures Produce(s, luck).ix.live == s.ix.live
  {
    hide X.Shape, X.StoreKey, X.StoreTail, X.StoreValue, X.Rewind, X.DropValue, X.ClearValue, X.Grow, BlocksFor, Full,
      NewEntry, TailEntry, UndoEntry, BlockFor, UndoKey, First, X.SlotFree, EndBlock;
  }

  /** Only a read delivers, at an index that was not delivered before. */
  lemma ConsumeEffect(s: State, t: Thread)
    requires Inv(s) && CanConsume(s, t)
    ensures Effect(s, Consume(s, t))
  {
    hide Inv, X.Shape, Consume, CanConsume;
    ReadIsNew(s, t);
    ConsumeStays(s, t);
  }

  lemma ReadIsNew(s: State, t: Thread)
    requires Inv(s) && CanConsume(s, t)
    ensures t in s.con && (s.con[t].Read? ==> s.con[t].i !in s.delivered)
  {
    hide Inv;
    if s.con[t].Read? {
      ReadFinds(s, t);
    }
  }

  lemma ConsumeStays(s: State, t: Thread)
    requires CanConsume(s, t) && (s.con[t].Read? ==> s.con[t].i !in s.delivered)
    ensures Stays(s, Consume(s, t))
  {
    hide Consume, X.Shape, OnlyLeave, StillDelivered, First, BlockOf;
    ConsumeLeaves(s, t);
    if s.con[t].Read? || s.con[t].SetEmpty? || s.con[t].AddFree? || s.con[t].NextBlock? {
      WorkStays(s, t);
    } else {
      LookUpStays(s, t);
    }
  }

  lemma WorkStays(s: State, t: Thread)
    requires CanConsume(s, t) && (s.con[t].Read? ==> s.con[t].i !in s.delivered)
    requires s.con[t].Read? || s.con[t].SetEmpty? || s.con[t].AddFree? || s.con[t].NextBlock?
    ensures
      var s' := Consume(s, t);
      && s'.history == s.history && s'.q.sh == s.q.sh && s'.tailBlock == s.tailBlock && s'.todo == s.todo
      && StillDelivered(s.delivered, s'.delivered)
  {
    hide X.Shape, BlockOf, Offset, T.Range, X.HeaderShape, T.Step;
    ReturnActs(s.q, t);
  }

  lemma ReturnActs(q: T.State, t: Thread)
    requires t in q.pc && q.pc[t].Claimed?
    ensures T.Step(q, t).sh == q.sh
  {
  }

  lemma LookUpStays(s: State, t: Thread)
    requires CanConsume(s, t)
    requires s.con[t].LoadHeader? || s.con[t].LoadTail? || s.con[t].LoadKey? || s.con[t].LoadValue? || s.con[t].StoreNull?
    ensures
      var s' := Consume(s, t);
      && s'.history == s.history && s'.q == s.q && s'.tailBlock == s.tailBlock && s'.todo == s.todo
      && StillDelivered(s.delivered, s'.delivered)
  {
    hide X.Shape, X.LookUp, X.ClearValue, BlockOf, X.HeaderShape;
  }

  lemma ConsumeLeaves(s: State, t: Thread)
    requires CanConsume(s, t)
    ensures OnlyLeave(First(s), s.ix.live, Consume(s, t).ix.live)
  {
    hide CanConsume, Consume, First, X.Shape;
    ConsumeLive(s, t);
  }

  lemma ConsumeLive(s: State, t: Thread)
    requires CanConsume(s, t)
    ensures
      var live' := Consume(s, t).ix.live;
      if s.con[t].StoreNull? then live' == s.ix.live - {BlockOf(s.con[t].i - 1)} else live' == s.ix.live
  {
    hide X.Shape, Consume, BlockOf;
    if s.con[t].StoreNull? {
      RetireChangesLive(s, t);
    } else if s.con[t].Read? || s.con[t].SetEmpty? || s.con[t].AddFree? || s.con[t].NextBlock? {
      WorkKeepsLive(s, t);
    } else {
      LookUpKeepsLive(s, t);
    }
  }

  lemma RetireChangesLive(s: State, t: Thread)
    requires CanConsume(s, t) && s.con[t].StoreNull?
    ensures Consume(s, t).ix.live == s.ix.live - {BlockOf(s.con[t].i - 1)}
  {
    hide X.Shape, X.ClearValue, BlockOf;
  }

  lemma WorkKeepsLive(s: State, t: Thread)
    requires CanConsume(s, t) && (s.con[t].Read? || s.con[t].SetEmpty? || s.con[t].AddFree? || s.con[t].NextBlock?)
    ensures Consume(s, t).ix.live == s.ix.live
  {
    hide X.Shape, BlockOf, Offset, T.Range, X.HeaderShape;
  }

  lemma LookUpKeepsLive(s: State, t: Thread)
    requires CanConsume(s, t) && (s.con[t].LoadHeader? || s.con[t].LoadTail? || s.con[t].LoadKey? || s.con[t].LoadValue?)
    ensures Consume(s, t).ix.live == s.ix.live
  {
    hide X.Shape, X.LookUp, BlockOf, X.HeaderShape;
  }

  lemma StepKeepsDelivered(s: State, s': State)
    requires Inv(s) && Next(s, s')
    ensures s.history <= s'.history && s.q.sh.head <= s'.q.sh.head
    ensures forall k :: k in s.delivered ==> k in s'.delivered && s'.delivered[k] == s.delivered[k]
  {
    hide Inv, Next;
    StepHasEffect(s, s');
  }

  /** Items once published or delivered stay so for the rest of the run. */
  lemma {:induction false} DeliveryIsFinal(run: seq<State>, i: nat, j: nat)
    requires Run(run) && i <= j < |run|
    ensures run[i].history <= run[j].history && run[i].q.sh.head <= run[j].q.sh.head
    ensures forall k :: k in run[i].delivered ==> k in run[j].delivered && run[j].delivered[k] == run[i].delivered[k]
  {
    hide Inv, Run, Next;
    if i < j {
      DeliveryIsFinal(run, i, j - 1);
      IndexedSteps(run, j - 1);
      StepKeepsDelivered(Indexed(run[j - 1]), Indexed(run[j]));
    }
  }

  /** What was delivered at an index is what was enqueued there, in every state of every run. */
  lemma DeliveredIsEnqueued(run: seq<State>, i: nat, k: nat)
    requires Run(run) && i < |run| && k in run[i].delivered
    ensures k < run[i].q.sh.head <= |run[i].history| && run[i].delivered[k] == run[i].history[k]
  {
    hide Inv, Run;
    RunHasInv(run, i);
    InvIndices(Indexed(run[i]));
  }

  /** A read takes an element that is there, is the one enqueued at its index, and was never taken before. */
  lemma EveryReadIsNew(run: seq<State>, i: nat, t: Thread)
    requires Run(run) && i < |run| && t in run[i].con && t in run[i].q.pc && run[i].q.pc[t].Claimed? && run[i].con[t].Read?
    ensures
      var s, k, id := run[i], run[i].con[t].i, run[i].con[t].id;
      && k !in s.delivered && k < |s.history| && (id, Offset(k)) in s.mem && s.mem[(id, Offset(k))] == s.history[k]
      && CanConsume(s, t) && Consume(s, t).delivered == s.delivered[k := s.history[k]]
  {
    hide Inv, Run, X.Shape, BlockOf, Offset;
    ConsumerCanMove(run, i, t);
    ClaimHasIndex(run, i, t);
    RunHasInv(run, i);
    ReadFinds(run[i], t);
  }

  /** A consumer about to return has delivered exactly the items at the indices it claimed. */
  lemma ClaimIsDelivered(run: seq<State>, i: nat, t: Thread)
    requires Run(run) && i < |run| && t in run[i].con && t in run[i].q.pc && run[i].q.pc[t].Claimed?
    requires run[i].con[t].NextBlock? && run[i].con[t].i >= End(run[i], t)
    ensures
      var s := run[i];
      forall k :: s.q.pc[t].first <= k < End(s, t) ==> k in s.delivered && k < |s.history| && s.delivered[k] == s.history[k]
  {
    hide Inv, Run, X.Shape, PlaceOk;
    RunHasInv(run, i);
    InvParts(Indexed(run[i]), t);
    InvIndices(Indexed(run[i]));
  }

  // ---------------------------------------------------------------- blocks of memory

  /** The block of an item that was not dequeued is in the index and is neither being freed nor anybody else's. */
  lemma UnreadItemKeepsBlock(run: seq<State>, i: nat, k: nat)
    requires Run(run) && i < |run| && k < |run[i].filled| && k !in run[i].delivered
    ensures
      var s, n := run[i], BlockOf(k);
      && n in s.ix.live && s.ix.live[n] in s.role && s.role[s.ix.live[n]] == Live(n)
      && (s.ix.live[n], Offset(k)) in s.mem && s.mem[(s.ix.live[n], Offset(k))] == s.filled[k]
  {
    hide Inv, Run, BlockOf, Offset, DoneIn;
    RunHasInv(run, i);
    var s, n := Indexed(run[i]), BlockOf(k);
    InvIndices(s);
    assert Stored(s.ix.live, s.mem, s.filled, k);
    InvBlocks(s, n);
    if s.role[s.ix.live[n]].Retiring? {
      FullBlock(s.done, n, k);
    }
  }

  /** A block is taken out of the index only after all its items were dequeued, in whatever order blocks empty. */
  lemma RetiredBlockIsRead(run: seq<State>, i: nat, t: Thread, k: nat)
    requires Run(run) && i < |run| && t in run[i].con && t in run[i].q.pc && run[i].q.pc[t].Claimed?
    requires run[i].con[t].StoreNull? && run[i].con[t].i > 0 && BlockOf(k) == BlockOf(run[i].con[t].i - 1)
    ensures k in run[i].delivered && BlockOf(k) in run[i].ix.live && run[i].ix.live[BlockOf(k)] == run[i].con[t].id
  {
    hide Inv, Run, BlockOf, X.Shape, X.Ent;
    RunHasInv(run, i);
    ConsumerCanMove(run, i, t);
    ClaimHasIndex(run, i, t);
    StoreNullFinds(run[i], t, BlockOf(k));
    InvIndices(run[i]);
  }

  /** The consumer that retires a block is the one that completes its last index, and every last one does. */
  lemma LastOneRetires(run: seq<State>, i: nat, t: Thread)
    requires Run(run) && i < |run| && t in run[i].con && t in run[i].q.pc && run[i].q.pc[t].Claimed? && run[i].con[t].SetEmpty?
    ensures CanConsume(run[i], t)
    ensures
      var s' := Consume(run[i], t);
      s'.con[t].StoreNull? <==> forall k: nat :: BlockOf(k) == BlockOf(run[i].con[t].start) ==> k in s'.done
  {
    hide Inv, Run, BlockOf, X.Shape, DoneIn, T.Range;
    RunHasInv(run, i);
    ConsumerCanMove(run, i, t);
    ClaimHasIndex(run, i, t);
    var s, s' := run[i], Consume(run[i], t);
    var n := BlockOf(s.con[t].start);
    SetEmptyFinds(s, t);
    DoneInGrows(s.done, n, s.con[t].start, s.con[t].i);
    if s'.con[t].StoreNull? {
      forall k: nat | BlockOf(k) == n ensures k in s'.done {
        FullBlock(s'.done, n, k);
      }
    } else if forall k: nat :: BlockOf(k) == n ==> k in s'.done {
      WholeBlock(s'.done, n);
    }
  }

  lemma WholeBlock(done: set<nat>, n: nat)
    requires forall k: nat :: BlockOf(k) == n ==> k in done
    ensures |DoneIn(done, n)| == BLOCK_SIZE
  {
    hide BlockOf, Base;
    var all := T.Range(Base(n), Base(n) + BLOCK_SIZE);
    forall k | k in all ensures k in DoneIn(done, n) {
      BlockOfIs(k, n);
    }
    T.SubsetSize(all, DoneIn(done, n));
    DoneInBound(done, n);
  }

  /** No two consumers put the same block of memory on the free list. */
  lemma FreedByOne(run: seq<State>, i: nat, t: Thread, u: Thread)
    requires Run(run) && i < |run| && t in run[i].con && u in run[i].con && t != u
    requires HasBlock(run[i].con[t]) && HasBlock(run[i].con[u])
    ensures run[i].con[t].id != run[i].con[u].id
  {
    hide Inv, Run, BlockOf, X.Shape, HeaderFits, SlotOf;
    RunHasInv(run, i);
    InvParts(Indexed(run[i]), t);
    InvParts(Indexed(run[i]), u);
  }

  /** A block that left the index below the tail never comes back, and none changes its block of memory. */
  lemma {:induction false} BlocksLeaveForGood(run: seq<State>, i: nat, j: nat)
    requires Run(run) && i <= j < |run|
    ensures First(run[i]) <= First(run[j])
    ensures OnlyLeave(First(run[i]), run[i].ix.live, run[j].ix.live)
  {
    hide Inv, Run, Next, BlocksFor;
    if i < j {
      BlocksLeaveForGood(run, i, j - 1);
      IndexedSteps(run, j - 1);
      StepHasEffect(Indexed(run[j - 1]), Indexed(run[j]));
      BlocksForOrder(run[j - 1].q.sh.tail, run[j].q.sh.tail);
    }
  }
}
