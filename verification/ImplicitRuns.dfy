/**
  Every run of a producer and its consumers keeps the invariant, and nobody is ever stuck in the middle of a call.
*/
module ImplicitRuns {
  import opened Wrappers
  import opened Words
  import opened Blocks
  import T = Tickets
  import X = BlockIndex
  import opened ImplicitQueue
  import opened ImplicitConsumers
  import opened ImplicitBlocks
  import opened ImplicitProducers

  // ---------------------------------------------------------------- every run keeps the invariant

  lemma InitHasInv(s: State)
    requires Init(s) && X.InitIndex(s.ix)
    ensures Inv(s)
  {
    hide T.Inv, X.Inv, T.Init, X.HeaderShape, X.Divides;
    T.InitHasInv(s.q);
    X.InitHasInv(s.ix);
    BlocksForIs(0);
    BaseNext(0);
    assert X.Shape(s.ix) by {
      IndexShape(s.ix);
    }
    InitCounters(s.q);
  }

  lemma IndexShape(ix: X.Index)
    requires X.Inv(ix)
    ensures X.Shape(ix)
  {
  }

  lemma InitCounters(q: T.State)
    requires T.Init(q)
    ensures q.sh.tail == q.sh.head == 0 && forall t :: t in q.pc ==> q.pc[t] == T.Idle
  {
  }

  lemma NextKeeps(s: State, s': State)
    requires Inv(s) && T.Timely(s.q) && Next(s, s')
    ensures Inv(s')
  {
    hide Inv, T.Timely, CanProduce, Produce, CanConsume, Consume, Elsewhere, Ticket, Call, T.Call;
    if items :| s.prod == Ready && s' == Call(s, items) {
      CallKeeps(s, items);
    } else if luck :| s.prod != Ready && CanProduce(s, luck) && s' == Produce(s, luck) {
      ProduceKeeps(s, luck);
    } else if t, max: nat :| t in s.q.pc && s.q.pc[t] == T.Idle && max > 0 && s' == s.(q := T.Call(s.q, t, max)) {
      DequeueCallKeeps(s, t, max);
    } else if t :| t in s.q.pc && !s.q.pc[t].Claimed? && s' == Ticket(s, t) {
      TicketKeeps(s, t);
    } else if t :| CanConsume(s, t) && s' == Consume(s, t) {
      ConsumeKeeps(s, t);
    } else {
      ElsewhereKeeps(s, s');
    }
  }

  /** The state as it would be if the constructor had been able to allocate the index. */
  ghost function Indexed(s: State): State {
    if s.ix == X.NO_INDEX then s.(ix := X.FirstIndex()) else s
  }

  lemma IndexedInit(s: State)
    requires Init(s)
    ensures Init(Indexed(s)) && X.InitIndex(Indexed(s).ix)
    ensures s.ix == X.NO_INDEX ==> Stranded(s)
  {
    InitCounters(s.q);
  }

  /** How far a producer without an index gets: to the slot it would store its first key in. */
  ghost predicate Stranded(s: State) {
    && s.ix == X.NO_INDEX && s.q.sh.tail == 0 && s.history == [] && s.filled == [] && s.chain == []
    && match s.prod
       case Ready => true
       case LoadHead(n) => n == 0
       case TestSlot(n) => n == 0 && !Full(0, 0)
       case StoreIndex => s.todo == []
       case _ => false
  }

  lemma StrandedCall(s: State, items: seq<Item>)
    requires Stranded(s) && s.prod == Ready
    ensures Stranded(Call(s, items)) && Call(Indexed(s), items) == Indexed(Call(s, items))
  {
    BlocksForIs(0);
    BlocksForIs(|items|);
    BaseNext(0);
  }

  lemma StrandedProduce(s: State, luck: Luck)
    requires Stranded(s) && s.q.sh.head == 0 && CanProduce(s, luck) && s.prod != Ready
    ensures Stranded(Produce(s, luck))
    ensures CanProduce(Indexed(s), luck) && Produce(Indexed(s), luck) == Indexed(Produce(s, luck))
  {
    hide BlocksFor, Full, X.FirstIndex, T.Publish;
    assert s.prod.LoadHead? || s.prod.StoreIndex?;
    if s.prod.StoreIndex? {
      assert T.Publish(s.q, 0) == s.q by {
        PublishNothing(s.q);
      }
    }
  }

  lemma PublishNothing(q: T.State)
    ensures T.Publish(q, 0) == q
  {
  }

  lemma StrandedTicket(s: State, t: Thread)
    requires Stranded(s) && t in s.q.pc
    ensures Stranded(Ticket(s, t)) && Ticket(Indexed(s), t) == Indexed(Ticket(s, t))
  {
    hide T.Act, X.FirstIndex;
    T.ActGrows(T.View(s.q.sh, s.q.pc[t]));
  }

  lemma StrandedConsumer(s: State, t: Thread)
    requires Stranded(s)
    ensures !CanConsume(s, t)
  {
  }

  lemma StrandedElsewhere(s: State, s': State)
    requires Stranded(s) && Elsewhere(s, s')
    ensures Stranded(s') && Elsewhere(Indexed(s), Indexed(s'))
  {
    hide X.FirstIndex;
  }

  /** Without an index the producer gets nowhere near one: its steps are those of a queue that has one. */
  lemma StrandedNext(s: State, s': State)
    requires Stranded(s) && s.q.sh.head == 0 && Next(s, s')
    ensures Stranded(s') && Next(Indexed(s), Indexed(s'))
  {
    hide Elsewhere, Ticket, T.Call, CanConsume, Consume, CanProduce, Produce, Call, X.FirstIndex;
    var r, r' := Indexed(s), Indexed(s');
    if items :| s.prod == Ready && s' == Call(s, items) {
      StrandedCall(s, items);
      assert r' == Call(r, items);
    } else if luck :| s.prod != Ready && CanProduce(s, luck) && s' == Produce(s, luck) {
      StrandedProduce(s, luck);
      assert r' == Produce(r, luck);
    } else if t, max: nat :| t in s.q.pc && s.q.pc[t] == T.Idle && max > 0 && s' == s.(q := T.Call(s.q, t, max)) {
      StrandedDequeue(s, t, max);
      assert r' == r.(q := T.Call(r.q, t, max));
    } else if t :| t in s.q.pc && !s.q.pc[t].Claimed? && s' == Ticket(s, t) {
      StrandedTicket(s, t);
      assert r' == Ticket(r, t);
    } else if t :| CanConsume(s, t) && s' == Consume(s, t) {
      StrandedConsumer(s, t);
    } else {
      StrandedElsewhere(s, s');
    }
  }

  lemma StrandedDequeue(s: State, t: Thread, max: nat)
    requires Stranded(s)
    ensures Stranded(s.(q := T.Call(s.q, t, max)))
  {
  }

  /** The invariant speaks of a producer with an index; one without satisfies it too but for that, and is stranded. */
  ghost predicate Sound(s: State) {
    Inv(Indexed(s)) && (s.ix == X.NO_INDEX ==> Stranded(s))
  }

  lemma InitIsSound(s: State)
    requires Init(s)
    ensures Sound(s)
  {
    hide Inv, Init, Stranded;
    IndexedInit(s);
    InitHasInv(Indexed(s));
  }

  lemma NextIsSound(s: State, s': State)
    requires Sound(s) && T.Timely(s.q) && Next(s, s')
    ensures Sound(s') && Next(Indexed(s), Indexed(s')) && (s.ix == X.NO_INDEX <==> s'.ix == X.NO_INDEX)
  {
    hide Inv, Next, T.Timely, Stranded;
    if s.ix == X.NO_INDEX {
      NoIndex(s);
      InvIndices(Indexed(s));
      StrandedNext(s, s');
      NoIndex(s');
      NextKeeps(Indexed(s), Indexed(s'));
    } else {
      NextKeeps(s, s');
      InvHasIndex(s');
    }
  }

  /** The invariant holds in every state of every run, and a producer without an index never gets one. */
  lemma {:induction false} RunHasInv(run: seq<State>, i: nat)
    requires Run(run) && i < |run|
    ensures Inv(Indexed(run[i]))
    ensures if run[0].ix == X.NO_INDEX then Stranded(run[i]) else run[i].ix != X.NO_INDEX
  {
    hide Inv, Next, Init, T.Timely, Stranded;
    if i == 0 {
      InitIsSound(run[0]);
    } else {
      RunHasInv(run, i - 1);
      assert NextAt(run, i - 1);
      NoIndexIf(run[i - 1]);
      NextIsSound(run[i - 1], run[i]);
    }
  }

  lemma NoIndexIf(s: State)
    ensures Stranded(s) ==> s.ix == X.NO_INDEX
  {
  }

  lemma NoIndex(s: State)
    requires Stranded(s)
    ensures s.ix == X.NO_INDEX && Indexed(s).q == s.q && s.q.sh.tail == 0
  {
  }

  lemma InvHasIndex(s: State)
    requires Inv(s)
    ensures s.ix != X.NO_INDEX
  {
  }

  lemma InvProducing(s: State)
    requires X.Shape(s.ix) && ProducerOk(s)
    ensures ProducingOk(s.prod, s.q.sh.tail, |s.todo|, s.ix, s.chain, s.count, s.role)
  {
    hide X.Shape, ProducingOk;
  }

  // ---------------------------------------------------------------- no step is ever stuck

  /** No consumer faults, and one that holds a claim can always take its next step. */
  lemma ConsumerCanMove(run: seq<State>, i: nat, t: Thread)
    requires Run(run) && i < |run| && t in run[i].con
    ensures run[i].con[t] != Fault
    ensures t in run[i].q.pc && (run[i].q.pc[t].Claimed? ==> CanConsume(run[i], t))
  {
    hide Inv, Run, CanConsume, X.Shape, PlaceOk;
    RunHasInv(run, i);
    var s := Indexed(run[i]);
    InvParts(s, t);
    if s.q.pc[t].Claimed? {
      ClaimHasIndex(run, i, t);
      PlaceIsSafe(s, t);
    }
  }

  /** Without an index nothing is published, so nothing is claimed. */
  lemma ClaimHasIndex(run: seq<State>, i: nat, t: Thread)
    requires Run(run) && i < |run| && t in run[i].con && t in run[i].q.pc && run[i].q.pc[t].Claimed?
    ensures run[i].ix != X.NO_INDEX && Indexed(run[i]) == run[i]
  {
    hide Inv, Run, Next, X.Shape;
    RunHasInv(run, i);
    var s := Indexed(run[i]);
    ClaimBelowHead(s, t);
    InvIndices(s);
  }

  lemma PlaceIsSafe(s: State, t: Thread)
    requires X.Shape(s.ix) && t in s.con && t in s.q.pc && s.q.pc[t].Claimed?
    requires PlaceOk(s.con[t], t, s.q.pc[t].first, End(s, t), s.ix, s.role)
    ensures s.con[t] != Fault && CanConsume(s, t)
  {
    hide X.Has, BlockOf, X.Shape;
    var c := s.con[t];
    if c.LoadValue? || c.StoreNull? {
      HeaderIsShaped(s.ix, c.g);
    }
  }

  /** Some step of the producer is possible; while it rests, that is the next call. */
  ghost predicate CanGoOn(s: State) {
    exists luck :: CanProduce(s, luck)
  }

  /**
    A producer with an index can always go on: it never looks up, rewinds or follows what is not there. One without
    goes on too, until it tests a slot of the index it does not have: there it follows a null pointer.
  */
  lemma ProducerCanMove(run: seq<State>, i: nat)
    requires Run(run) && i < |run|
    ensures CanGoOn(run[i]) <==> run[0].ix != X.NO_INDEX || !run[i].prod.TestSlot?
    ensures CanProduce(run[i], NoMemory) <==> CanGoOn(run[i])
  {
    hide Inv, Run, X.Shape, UndoKey, ProducerOk, ProducingOk, BlocksFor, BlockFor, Stranded;
    RunHasInv(run, i);
    if run[0].ix == X.NO_INDEX {
      StrandedMoves(run[i]);
    } else {
      IndexedMoves(run[i]);
    }
    assert CanProduce(run[i], NoMemory) ==> CanGoOn(run[i]);
  }

  lemma StrandedMoves(s: State)
    requires Stranded(s)
    ensures forall luck :: CanProduce(s, luck) <==> !s.prod.TestSlot?
    ensures CanProduce(s, NoMemory) <==> !s.prod.TestSlot?
  {
  }

  lemma IndexedMoves(s: State)
    requires Inv(s)
    ensures CanProduce(s, NoMemory)
  {
    hide Inv, X.Shape, UndoKey, ProducerOk, ProducingOk, BlocksFor, BlockFor;
    InvProducer(s);
    InvProducing(s);
    PlaceIsSound(s.prod, s.q.sh.tail, |s.todo|, s.ix, s.chain, s.count, s.role);
    if s.prod.UndoValue? {
      UndoKeyIs(s);
    } else if s.prod.Write? {
      BlockForIsLive(s, s.prod.i);
    }
  }

  /** The first enqueue of such a queue comes to that point in two steps. */
  lemma FirstEnqueueFaults(s: State, items: seq<Item>) returns (run: seq<State>)
    requires Init(s) && s.ix == X.NO_INDEX && items != [] && !Full(0, 0)
    ensures Run(run) && |run| == 3 && run[0] == s && run[1] == Call(s, items)
    ensures run[2].prod.TestSlot? && !CanGoOn(run[2])
  {
    hide Full;
    InitCounters(s.q);
    var s1 := Call(s, items);
    BlocksForIs(0);
    BlocksForIs(|items|);
    BaseNext(0);
    var s2 := Produce(s1, NoMemory);
    run := [s, s1, s2];
    assert NextAt(run, 0) by {
      assert Next(s, s1);
    }
    assert NextAt(run, 1) by {
      assert CanProduce(s1, NoMemory) && Next(s1, s2);
    }
  }

  /**
    So, unless the queue may not even hold one block, the producer can go on in every state of every run if and only if
    the constructor's allocation succeeded.
  */
  lemma AlwaysMovesExactly(s: State)
    requires Init(s)
    ensures (forall run, i: nat :: Run(run) && i < |run| && run[0] == s ==> CanGoOn(run[i]))
            <==> s.ix != X.NO_INDEX || Full(0, 0)
  {
    hide Run, Init, CanProduce, Full, Stranded, Inv;
    if s.ix != X.NO_INDEX || Full(0, 0) {
      forall run, i: nat | Run(run) && i < |run| && run[0] == s ensures CanGoOn(run[i]) {
        ProducerCanMove(run, i);
        RunHasInv(run, i);
        if s.ix == X.NO_INDEX {
          StrandedBelowFull(run[i]);
        }
      }
    } else {
      var run := FirstEnqueueFaults(s, [0]);
      assert Run(run) && 2 < |run| && !CanGoOn(run[2]);
    }
  }

  lemma StrandedBelowFull(s: State)
    requires Stranded(s) && Full(0, 0)
    ensures !s.prod.TestSlot?
  {
  }

  lemma PlaceIsSound(prod: Producer, tail: nat, size: nat, ix: X.Index, chain: seq<BlockId>, count: map<BlockId, nat>,
                     role: map<BlockId, Role>)
    requires X.Shape(ix) && ProducingOk(prod, tail, size, ix, chain, count, role)
    ensures prod.StoreValue? || prod.RewindTail? || prod.UndoTail? ==> ix.next > 0
    ensures prod.UndoValue? ==> BlocksFor(tail) <= prod.k < BlocksFor(tail) + |chain|
    ensures prod.UndoFree? ==> prod.j < |chain|
  {
    hide X.Shape, BlocksFor, ChainLive, ChainUndone, LiveBelow;
  }

  /** The assert at line 2853 for the producer's own lookups: the tail slot has the key of the last block inserted. */
  lemma UndoKeyIs(s: State)
    requires Inv(s) && s.prod.UndoValue?
    ensures X.Shape(s.ix) && s.ix.next > 0 && UndoKey(s) == Some(s.ix.next - 1)
  {
    hide T.Inv, StoredOk, BlocksOk, RolesOk, CoverOk, HistoryOk, ConsumersOk, TailOk, FilledOk, RoomOk, ChainLive,
      ChainUndone, BlocksFor, X.HeadersOk, X.ValuesOk, X.Slot, X.InWindow;
    HeaderIsShaped(s.ix, |s.ix.headers| - 1);
  }

  /** The asserts at lines 2404 and 2565: the head is not beyond the block about to be inserted, on words. */
  lemma HeadIsBehind(run: seq<State>, i: nat)
    requires Run(run) && i < |run| && run[i].prod.LoadHead?
    ensures !CircularLess(Wrap(Base(run[i].prod.n)), Wrap(run[i].q.sh.head))
  {
    hide Inv, Run, Wrap, CircularLess, Base;
    RunHasInv(run, i);
    NextBlockRoom(Indexed(run[i]));
    CircularLessIsLess(Base(run[i].prod.n), run[i].q.sh.head);
  }

  lemma NextBlockRoom(s: State)
    requires Inv(s) && s.prod.LoadHead?
    ensures s.q.sh.head <= Base(s.prod.n) && Within(Base(s.prod.n), s.q.sh.head)
  {
    hide Inv, X.Shape, BlocksFor, TailOk, FilledOk, Base, ChainLive, LiveBelow;
    InvProducer(s);
    HeadBelowNext(s, s.prod.n);
  }

  /**
    The room check refuses a block exactly when it would end half the range or more ahead of the head, or more than the
    limit ahead when one is set.
  */
  lemma RoomIsRefusedExactly(run: seq<State>, i: nat)
    requires Run(run) && i < |run| && run[i].prod.LoadHead?
    ensures
      var head, end := run[i].q.sh.head, Base(run[i].prod.n) + BLOCK_SIZE;
      Full(head, run[i].prod.n) <==>
      end >= head + HALF || (MAX_BLOCKS.Some? && end > head + Base(MAX_BLOCKS.value))
  {
    hide Inv, Run, Full, Base;
    RunHasInv(run, i);
    NextBlockRoom(Indexed(run[i]));
    NotFullIsRoom(run[i].q.sh.head, run[i].prod.n);
    BaseNext(run[i].prod.n);
  }

  /**
    Along every run the queue stays within its limit, if it has one, and the tail within half the index range of the
    head, so that comparing the words compares the indices.
  */
  lemma TailNearHead(run: seq<State>, i: nat)
    requires Run(run) && i < |run|
    ensures run[i].q.sh.head <= run[i].q.sh.tail < run[i].q.sh.head + HALF
    ensures MAX_BLOCKS.Some? ==> run[i].q.sh.tail - run[i].q.sh.head <= Base(MAX_BLOCKS.value)
    ensures CircularLess(Wrap(run[i].q.sh.head), Wrap(run[i].q.sh.tail)) <==> run[i].q.sh.head < run[i].q.sh.tail
  {
    hide Inv, Run, Wrap, CircularLess, Base, BlocksFor, ProducingOk, TailOk, FilledOk, X.Shape;
    RunHasInv(run, i);
    InvProducer(Indexed(run[i]));
    InvIndices(Indexed(run[i]));
    BlocksForIs(run[i].q.sh.tail);
    CircularLessIsLess(run[i].q.sh.head, run[i].q.sh.tail);
  }
}
