/**
  What a step of one implicit producer or of its consumers does outside its own blocks of memory: nothing. The free
  list and the other producers rely on that (source/utils/concurrentqueue.h:2396-2780).
*/
module Footprint {
  import opened Wrappers
  import opened Blocks
  import T = Tickets
  import X = BlockIndex
  import Q = ImplicitQueue
  import ImplicitConsumers
  import ImplicitBlocks
  import ImplicitProducers
  import ImplicitRuns

  type BlockId = Q.BlockId

  /** Elements and counters outside the blocks the queue has a use for are left alone. */
  ghost predicate WritesOwn(role: map<BlockId, Q.Role>, mem: map<(BlockId, nat), Q.Item>, mem': map<(BlockId, nat), Q.Item>,
                            count: map<BlockId, nat>, count': map<BlockId, nat>) {
    && (forall id, o: nat :: id !in role ==> ((id, o) in mem' <==> (id, o) in mem))
    && (forall id, o: nat :: id !in role && (id, o) in mem && (id, o) in mem' ==> mem'[(id, o)] == mem[(id, o)])
    && (forall id :: id !in role ==> (id in count' <==> id in count))
    && (forall id :: id !in role && id in count && id in count' ==> count'[id] == count[id])
  }

  ghost predicate Local(s: Q.State, s': Q.State) {
    WritesOwn(s.role, s.mem, s'.mem, s.count, s'.count)
  }

  lemma SameIsLocal(s: Q.State, s': Q.State)
    requires s'.mem == s.mem && s'.count == s.count
    ensures Local(s, s')
  {
  }

  // ---------------------------------------------------------------- the producer

  lemma CountsOwn(s: Q.State, s': Q.State, id: BlockId, c: nat)
    requires id in s.role && s'.mem == s.mem && s'.count == s.count[id := c]
    ensures Local(s, s')
  {
  }

  lemma PutsOwn(s: Q.State, s': Q.State, id: BlockId, o: nat, v: Q.Item)
    requires id in s.role && s'.count == s.count && s'.mem == s.mem[(id, o) := v]
    ensures Local(s, s')
  {
  }

  lemma TakesOwn(s: Q.State, s': Q.State, id: BlockId, o: nat)
    requires id in s.role && s'.count == s.count && s'.mem == s.mem - {(id, o)}
    ensures Local(s, s')
  {
  }

  lemma ProduceIsLocal(s: Q.State, luck: Q.Luck)
    requires Q.Inv(s) && Q.CanProduce(s, luck)
    ensures Local(s, Q.Produce(s, luck))
  {
    hide Q.Inv, X.Shape, Q.CanProduce, Q.Produce, Local;
    var s' := Q.Produce(s, luck);
    if s.prod.ResetCount? {
      TakenIsOwn(s);
      ResetCounts(s, luck);
      CountsOwn(s, s', s.prod.id, 0);
    } else if s.prod.Write? {
      var i := s.prod.i;
      ImplicitProducers.BlockForIsLive(s, i);
      ImplicitBlocks.InvBlocks(s, BlockOf(i));
      WriteWrites(s, luck);
      PutsOwn(s, s', Q.BlockFor(s, i).value, Offset(i), s.todo[i - s.q.sh.tail]);
    } else {
      ProduceWritesNothing(s, luck);
      SameIsLocal(s, s');
    }
  }

  lemma TakenIsOwn(s: Q.State)
    requires Q.Inv(s) && (s.prod.ResetCount? || s.prod.StoreValue?)
    ensures s.prod.id in s.role
  {
    hide Q.Inv, X.Shape, BlocksFor, Q.Inserting;
    ImplicitProducers.InvProducer(s);
    ImplicitRuns.InvProducing(s);
  }

  lemma ResetCounts(s: Q.State, luck: Q.Luck)
    requires Q.CanProduce(s, luck) && s.prod.ResetCount?
    ensures
      var s' := Q.Produce(s, luck);
      s'.mem == s.mem && s'.count == s.count[s.prod.id := 0] && s'.role == s.role
  {
  }

  lemma WriteWrites(s: Q.State, luck: Q.Luck)
    requires Q.CanProduce(s, luck) && s.prod.Write?
    requires Q.BlockFor(s, s.prod.i).Some? && s.q.sh.tail <= s.prod.i < s.q.sh.tail + |s.todo|
    ensures
      var s', i := Q.Produce(s, luck), s.prod.i;
      && s'.mem == s.mem[(Q.BlockFor(s, i).value, Offset(i)) := s.todo[i - s.q.sh.tail]]
      && s'.count == s.count && s'.role == s.role
  {
    hide Q.BlockFor, X.Shape;
  }

  lemma ProduceWritesNothing(s: Q.State, luck: Q.Luck)
    requires Q.CanProduce(s, luck) && !s.prod.ResetCount? && !s.prod.Write?
    ensures Q.Produce(s, luck).mem == s.mem && Q.Produce(s, luck).count == s.count
  {
    hide X.Shape, Q.CanProduce, Q.Produce;
    if s.prod.UndoFree? {
      UndoFreeRoles(s, luck);
    } else if s.prod.StoreValue? {
      StoreValueRoles(s, luck);
    } else if s.prod.UndoValue? {
      UndoValueActs(s, luck);
    } else {
      ProduceKeepsRoles(s, luck);
    }
  }

  /** A producer takes a block when it requisitions one, and gives one up when it puts it on the free list. */
  lemma ProduceRoles(s: Q.State, luck: Q.Luck)
    requires Q.Inv(s) && Q.CanProduce(s, luck)
    ensures
      var keys := Q.Produce(s, luck).role.Keys;
      if s.prod.Requisition? && luck.NewBlock? then keys == s.role.Keys + {luck.id}
      else if s.prod.UndoFree? then
        s.prod.j < |s.chain| && s.chain[s.prod.j] in s.role && keys == s.role.Keys - {s.chain[s.prod.j]}
      else keys == s.role.Keys
  {
    hide Q.Inv, X.Shape, Q.CanProduce, Q.Produce;
    if s.prod.UndoFree? {
      UndoneIsOwn(s);
      UndoFreeRoles(s, luck);
    } else if s.prod.StoreValue? {
      TakenIsOwn(s);
      StoreValueRoles(s, luck);
    } else if s.prod.ResetCount? {
      ResetCounts(s, luck);
    } else if s.prod.Write? {
      ImplicitProducers.BlockForIsLive(s, s.prod.i);
      WriteWrites(s, luck);
    } else if s.prod.UndoValue? {
      ImplicitProducers.UndoValueFinds(s);
      UndoValueRoles(s, luck);
    } else {
      ProduceKeepsRoles(s, luck);
    }
  }

  lemma UndoneIsOwn(s: Q.State)
    requires Q.Inv(s) && s.prod.UndoFree?
    ensures s.prod.j < |s.chain| && s.chain[s.prod.j] in s.role
  {
    hide Q.Inv, X.Shape, BlocksFor, Q.LiveBelow;
    ImplicitProducers.InvProducer(s);
    ImplicitRuns.InvProducing(s);
  }

  lemma UndoFreeRoles(s: Q.State, luck: Q.Luck)
    requires Q.CanProduce(s, luck) && s.prod.UndoFree?
    ensures s.prod.j < |s.chain|
    ensures var s' := Q.Produce(s, luck); s'.role == s.role - {s.chain[s.prod.j]} && s'.mem == s.mem && s'.count == s.count
  {
  }

  lemma StoreValueRoles(s: Q.State, luck: Q.Luck)
    requires Q.CanProduce(s, luck) && s.prod.StoreValue?
    ensures
      var s' := Q.Produce(s, luck);
      s'.role == s.role[s.prod.id := Q.Live(s.prod.n)] && s'.mem == s.mem && s'.count == s.count
  {
    hide X.Shape, X.StoreValue, Q.TailEntry, Q.AfterBlock;
  }

  lemma UndoValueActs(s: Q.State, luck: Q.Luck)
    requires Q.CanProduce(s, luck) && s.prod.UndoValue?
    ensures Q.First(s) <= s.prod.k < Q.First(s) + |s.chain|
    ensures
      var s', j := Q.Produce(s, luck), s.prod.k - Q.First(s);
      s'.role == s.role[s.chain[j] := Q.Undone(j)] && s'.mem == s.mem && s'.count == s.count
  {
    hide X.Shape, X.ClearValue, Q.UndoEntry, Q.UndoKey, BlocksFor;
  }

  lemma UndoValueRoles(s: Q.State, luck: Q.Luck)
    requires Q.CanProduce(s, luck) && s.prod.UndoValue? && ImplicitProducers.TakesBack(s, s.prod.k)
    ensures Q.Produce(s, luck).role.Keys == s.role.Keys
  {
    hide X.Shape, BlocksFor, Q.CanProduce, Q.Produce;
    UndoValueActs(s, luck);
  }

  lemma ProduceKeepsRoles(s: Q.State, luck: Q.Luck)
    requires Q.CanProduce(s, luck) && !s.prod.UndoFree? && !s.prod.StoreValue? && !s.prod.UndoValue?
    requires !s.prod.ResetCount? && !s.prod.Write?
    ensures
      var s' := Q.Produce(s, luck);
      && s'.role == (if s.prod.Requisition? && luck.NewBlock? then s.role[luck.id := Q.Taken] else s.role)
      && s'.mem == s.mem && s'.count == s.count
  {
    hide X.Shape, Q.CanProduce, Q.Produce;
    if s.prod.LoadHead? || s.prod.TestSlot? || s.prod.StoreKey? || s.prod.StoreTail? || s.prod.Requisition? {
      AdvanceKeepsRoles(s, luck);
    } else {
      RevertKeepsRoles(s, luck);
    }
  }

  lemma AdvanceKeepsRoles(s: Q.State, luck: Q.Luck)
    requires Q.CanProduce(s, luck)
    requires s.prod.LoadHead? || s.prod.TestSlot? || s.prod.StoreKey? || s.prod.StoreTail? || s.prod.Requisition?
    ensures
      var s' := Q.Produce(s, luck);
      && s'.role == (if s.prod.Requisition? && luck.NewBlock? then s.role[luck.id := Q.Taken] else s.role)
      && s'.mem == s.mem && s'.count == s.count
  {
    hide X.Shape, X.StoreKey, X.StoreTail, X.Grow, X.SlotFree, Q.Full, Q.NewEntry, Q.GiveUp;
  }

  lemma RevertKeepsRoles(s: Q.State, luck: Q.Luck)
    requires Q.CanProduce(s, luck)
    requires s.prod.Ready? || s.prod.RewindTail? || s.prod.DropValue? || s.prod.UndoTail? || s.prod.StoreIndex?
    ensures var s' := Q.Produce(s, luck); s'.role == s.role && s'.mem == s.mem && s'.count == s.count
  {
    hide X.Shape, X.Rewind, X.DropValue, BlocksFor, Q.NewEntry, Q.First, Q.EndBlock, Q.GiveUp, T.Publish;
  }

  // ---------------------------------------------------------------- the consumers

  lemma ConsumeIsLocal(s: Q.State, t: Q.Thread)
    requires Q.Inv(s) && Q.CanConsume(s, t)
    ensures Local(s, Q.Consume(s, t))
  {
    hide Q.Inv, X.Shape, Q.CanConsume, Q.Consume, Local, BlockOf, Offset;
    var s' := Q.Consume(s, t);
    ConsumerThere(s, t);
    if s.con[t].Read? {
      ImplicitConsumers.ReadFinds(s, t);
      ImplicitBlocks.InvBlocks(s, BlockOf(s.con[t].i));
      ReadReads(s, t);
      TakesOwn(s, s', s.con[t].id, Offset(s.con[t].i));
    } else if s.con[t].SetEmpty? {
      ImplicitBlocks.SetEmptyFinds(s, t);
      SetEmptyCounts(s, t);
      CountsOwn(s, s', s.con[t].id, s'.count[s.con[t].id]);
    } else if s.con[t].StoreNull? {
      StoreNullRoles(s, t);
      SameIsLocal(s, s');
    } else if s.con[t].AddFree? {
      AddFreeRoles(s, t);
      SameIsLocal(s, s');
    } else {
      ConsumerWorks(s, t);
      ConsumeKeepsRoles(s, t);
      SameIsLocal(s, s');
    }
  }

  lemma ConsumerThere(s: Q.State, t: Q.Thread)
    requires Q.CanConsume(s, t)
    ensures t in s.con && t in s.q.pc && s.q.pc[t].Claimed?
  {
  }

  lemma ConsumerWorks(s: Q.State, t: Q.Thread)
    requires Q.CanConsume(s, t)
    ensures !s.con[t].NoClaim? && !s.con[t].Fault?
  {
    hide X.Shape;
  }

  lemma ReadReads(s: Q.State, t: Q.Thread)
    requires Q.CanConsume(s, t) && s.con[t].Read? && (s.con[t].id, Offset(s.con[t].i)) in s.mem
    ensures
      var s' := Q.Consume(s, t);
      s'.mem == s.mem - {(s.con[t].id, Offset(s.con[t].i))} && s'.count == s.count && s'.role == s.role
  {
    hide X.Shape, BlockOf, Offset;
  }

  lemma SetEmptyCounts(s: Q.State, t: Q.Thread)
    requires Q.CanConsume(s, t) && s.con[t].SetEmpty? && s.con[t].id in s.role
    ensures
      var s', id := Q.Consume(s, t), s.con[t].id;
      && s'.mem == s.mem && id in s'.count && s'.count == s.count[id := s'.count[id]] && s'.role.Keys == s.role.Keys
  {
    hide X.Shape, BlockOf, Offset, T.Range;
  }

  /** A consumer gives up the block it retired when it puts it on the free list. */
  lemma ConsumeRoles(s: Q.State, t: Q.Thread)
    requires Q.Inv(s) && Q.CanConsume(s, t)
    ensures
      var keys := Q.Consume(s, t).role.Keys;
      if s.con[t].AddFree? then s.con[t].id in s.role && keys == s.role.Keys - {s.con[t].id}
      else keys == s.role.Keys
  {
    hide Q.Inv, X.Shape, Q.CanConsume, Q.Consume, BlockOf, Offset;
    ConsumerThere(s, t);
    ImplicitConsumers.RestBlock(s, t);
    if s.con[t].AddFree? {
      AddFreeRoles(s, t);
    } else if s.con[t].StoreNull? {
      StoreNullRoles(s, t);
    } else if s.con[t].SetEmpty? {
      ImplicitBlocks.SetEmptyFinds(s, t);
      SetEmptyCounts(s, t);
    } else if s.con[t].Read? {
      ImplicitConsumers.ReadFinds(s, t);
      ReadReads(s, t);
    } else {
      ConsumerWorks(s, t);
      ConsumeKeepsRoles(s, t);
    }
  }

  lemma AddFreeRoles(s: Q.State, t: Q.Thread)
    requires Q.CanConsume(s, t) && s.con[t].AddFree?
    ensures var s' := Q.Consume(s, t); s'.role == s.role - {s.con[t].id} && s'.mem == s.mem && s'.count == s.count
  {
    hide X.Shape;
  }

  lemma StoreNullRoles(s: Q.State, t: Q.Thread)
    requires Q.CanConsume(s, t) && s.con[t].StoreNull?
    ensures
      var s' := Q.Consume(s, t);
      s'.role == s.role[s.con[t].id := Q.Freed(t)] && s'.mem == s.mem && s'.count == s.count
  {
    hide X.Shape, BlockOf, X.ClearValue, X.HeaderShape;
  }

  lemma ConsumeKeepsRoles(s: Q.State, t: Q.Thread)
    requires Q.CanConsume(s, t)
    requires s.con[t].LoadHeader? || s.con[t].LoadTail? || s.con[t].LoadKey? || s.con[t].LoadValue? || s.con[t].NextBlock?
    ensures var s' := Q.Consume(s, t); s'.role == s.role && s'.mem == s.mem && s'.count == s.count
  {
    hide X.Shape, BlockOf, X.HeaderShape, T.Step, X.LookUp;
  }

  // ---------------------------------------------------------------- with or without an index

  ghost predicate ProducesWell(s: Q.State, luck: Q.Luck, s': Q.State) {
    && Local(s, s') && s'.q.pc.Keys == s.q.pc.Keys && s'.con.Keys == s.con.Keys
    && s'.role.Keys == (if s.prod.Requisition? && luck.NewBlock? then s.role.Keys + {luck.id}
                        else if s.prod.UndoFree? && s.prod.j < |s.chain| then s.role.Keys - {s.chain[s.prod.j]}
                        else s.role.Keys)
    && (s.prod.UndoFree? ==> s.prod.j < |s.chain| && s.chain[s.prod.j] in s.role)
  }

  lemma SoundProduce(s: Q.State, luck: Q.Luck)
    requires ImplicitRuns.Sound(s) && Q.CanProduce(s, luck)
    ensures ProducesWell(s, luck, Q.Produce(s, luck))
  {
    hide Q.Inv, ImplicitRuns.Stranded, Q.CanProduce, Q.Produce, Local;
    var s' := Q.Produce(s, luck);
    ProduceKeepsThreads(s, luck);
    if s.ix == X.NO_INDEX {
      StrandedRests(s, luck);
      SameIsLocal(s, s');
    } else {
      ProduceIsLocal(s, luck);
      ProduceRoles(s, luck);
    }
  }

  lemma StrandedRests(s: Q.State, luck: Q.Luck)
    requires ImplicitRuns.Stranded(s) && Q.CanProduce(s, luck)
    ensures !s.prod.Requisition? && !s.prod.UndoFree?
    ensures var s' := Q.Produce(s, luck); s'.role == s.role && s'.mem == s.mem && s'.count == s.count
  {
    hide X.Shape, Q.CanProduce, Q.Produce;
    StrandedPlaces(s, luck);
    if s.prod.LoadHead? {
      AdvanceKeepsRoles(s, luck);
    } else {
      RevertKeepsRoles(s, luck);
    }
  }

  lemma StrandedPlaces(s: Q.State, luck: Q.Luck)
    requires ImplicitRuns.Stranded(s) && Q.CanProduce(s, luck)
    ensures s.prod.Ready? || s.prod.LoadHead? || s.prod.StoreIndex?
  {
  }

  lemma ProduceKeepsThreads(s: Q.State, luck: Q.Luck)
    requires Q.CanProduce(s, luck)
    ensures Q.Produce(s, luck).q.pc == s.q.pc && Q.Produce(s, luck).con == s.con
  {
    hide Q.CanProduce, Q.Produce;
    if s.prod.StoreIndex? {
      StoreIndexKeepsThreads(s, luck);
    } else if s.prod.LoadHead? || s.prod.TestSlot? || s.prod.StoreKey? || s.prod.StoreTail? || s.prod.Requisition?
              || s.prod.ResetCount? || s.prod.StoreValue? {
      AdvanceKeepsThreads(s, luck);
    } else {
      RevertKeepsThreads(s, luck);
    }
  }

  lemma StoreIndexKeepsThreads(s: Q.State, luck: Q.Luck)
    requires Q.CanProduce(s, luck) && s.prod.StoreIndex?
    ensures Q.Produce(s, luck).q.pc == s.q.pc && Q.Produce(s, luck).con == s.con
  {
  }

  lemma AdvanceKeepsThreads(s: Q.State, luck: Q.Luck)
    requires Q.CanProduce(s, luck)
    requires s.prod.LoadHead? || s.prod.TestSlot? || s.prod.StoreKey? || s.prod.StoreTail? || s.prod.Requisition?
             || s.prod.ResetCount? || s.prod.StoreValue?
    ensures Q.Produce(s, luck).q == s.q && Q.Produce(s, luck).con == s.con
  {
    hide X.Shape, X.StoreKey, X.StoreTail, X.StoreValue, X.Grow, X.SlotFree, Q.Full, Q.NewEntry, Q.TailEntry, Q.GiveUp,
      Q.AfterBlock;
  }

  lemma RevertKeepsThreads(s: Q.State, luck: Q.Luck)
    requires Q.CanProduce(s, luck)
    requires s.prod.Ready? || s.prod.RewindTail? || s.prod.DropValue? || s.prod.UndoValue? || s.prod.UndoTail?
             || s.prod.UndoFree? || s.prod.Write?
    ensures Q.Produce(s, luck).q == s.q && Q.Produce(s, luck).con == s.con
  {
    hide X.Shape, X.Rewind, X.DropValue, X.ClearValue, BlocksFor, Q.NewEntry, Q.UndoEntry, Q.UndoKey, Q.BlockFor, Q.GiveUp;
  }

  ghost predicate ConsumesWell(s: Q.State, t: Q.Thread, s': Q.State) {
    && t in s.con && Local(s, s') && s'.q.pc.Keys == s.q.pc.Keys && s'.con.Keys == s.con.Keys && s'.prod == s.prod
    && s'.role.Keys == (if s.con[t].AddFree? then s.role.Keys - {s.con[t].id} else s.role.Keys)
    && (s.con[t].AddFree? ==> s.con[t].id in s.role)
  }

  lemma SoundConsume(s: Q.State, t: Q.Thread)
    requires ImplicitRuns.Sound(s) && Q.CanConsume(s, t)
    ensures ConsumesWell(s, t, Q.Consume(s, t))
  {
    hide Q.Inv, ImplicitRuns.Stranded, Q.CanConsume, Q.Consume, Local;
    if s.ix == X.NO_INDEX {
      ImplicitRuns.StrandedConsumer(s, t);
    } else {
      ConsumeIsLocal(s, t);
      ConsumeRoles(s, t);
      ConsumeKeepsThreads(s, t);
      ConsumerThere(s, t);
    }
  }

  lemma ConsumeKeepsThreads(s: Q.State, t: Q.Thread)
    requires Q.CanConsume(s, t)
    ensures
      var s' := Q.Consume(s, t);
      s'.q.pc.Keys == s.q.pc.Keys && s'.con.Keys == s.con.Keys && s'.prod == s.prod && s'.ix.headers == s.ix.headers
  {
    hide Q.CanConsume, Q.Consume;
    ConsumerThere(s, t);
    if s.con[t].Read? || s.con[t].SetEmpty? || s.con[t].AddFree? || s.con[t].NextBlock? {
      WorkKeepsThreads(s, t);
    } else {
      ConsumerWorks(s, t);
      LookUpKeepsThreads(s, t);
    }
  }

  lemma WorkKeepsThreads(s: Q.State, t: Q.Thread)
    requires Q.CanConsume(s, t) && (s.con[t].Read? || s.con[t].SetEmpty? || s.con[t].AddFree? || s.con[t].NextBlock?)
    ensures
      var s' := Q.Consume(s, t);
      s'.q.pc.Keys == s.q.pc.Keys && s'.con.Keys == s.con.Keys && s'.prod == s.prod && s'.ix.headers == s.ix.headers
  {
    hide X.Shape, BlockOf, Offset, T.Range, X.HeaderShape, T.Step;
    TicketKeepsThreads(s.q, t);
  }

  lemma TicketKeepsThreads(q: T.State, t: Q.Thread)
    requires t in q.pc
    ensures T.Step(q, t).pc.Keys == q.pc.Keys
  {
    hide T.Act;
  }

  lemma LookUpKeepsThreads(s: Q.State, t: Q.Thread)
    requires Q.CanConsume(s, t)
    requires s.con[t].LoadHeader? || s.con[t].LoadTail? || s.con[t].LoadKey? || s.con[t].LoadValue? || s.con[t].StoreNull?
    ensures
      var s' := Q.Consume(s, t);
      s'.q.pc.Keys == s.q.pc.Keys && s'.con.Keys == s.con.Keys && s'.prod == s.prod && s'.ix.headers == s.ix.headers
  {
    hide X.Shape, BlockOf, X.LookUp, X.HeaderShape;
  }
}
