/** Every access of the producer keeps the invariant of the queue. */
module ImplicitProducers {
  import opened Wrappers
  import opened Words
  import opened Blocks
  import T = Tickets
  import X = BlockIndex
  import opened ImplicitQueue
  import opened ImplicitConsumers
  import opened ImplicitBlocks

  // ---------------------------------------------------------------- the producer moves

  /** Consumers do not notice what the producer does. */
  lemma ConsumersAtRest(s: State, s': State)
    requires Inv(s) && X.Steady(s.ix, s'.ix) && StillLive(s, s')
    requires s'.con == s.con && s'.q.pc == s.q.pc && s'.delivered == s.delivered && s'.done == s.done
    requires forall id :: id in s.role && (s.role[id].Freed? || s.role[id].Retiring?) ==>
               id in s'.role && s'.role[id] == s.role[id]
    ensures X.Shape(s'.ix) && ConsumersOk(s'.con, s'.q.pc, s'.ix, s'.delivered, s'.done, s'.role)
  {
    hide Inv, X.Shape, X.Steady, ConsumerOk, BlockOf;
    InvKeys(s);
    SteadyShape(s.ix, s'.ix);
    forall u | u in s'.con ensures ConsumerOk(s'.con[u], u, s'.q.pc[u], s'.ix, s'.delivered, s'.done, s'.role) {
      ConsumerAtRest(s, s', u);
    }
  }

  lemma ConsumerAtRest(s: State, s': State, u: Thread)
    requires Inv(s) && X.Steady(s.ix, s'.ix) && StillLive(s, s') && u in s.con
    requires s'.con == s.con && s'.q.pc == s.q.pc && s'.delivered == s.delivered && s'.done == s.done
    requires forall id :: id in s.role && (s.role[id].Freed? || s.role[id].Retiring?) ==>
               id in s'.role && s'.role[id] == s.role[id]
    ensures u in s'.q.pc && X.Shape(s'.ix) && ConsumerOk(s'.con[u], u, s'.q.pc[u], s'.ix, s'.delivered, s'.done, s'.role)
  {
    hide Inv, X.Shape, X.Steady, BlockOf, X.Has, HeaderFits, SlotOf;
    InvParts(s, u);
    if s.q.pc[u].Claimed? {
      ClaimBelowHead(s, u);
    }
    RestKept(s, s', u);
  }

  predicate HoldsBlocks(p: Producer) {
    p.ResetCount? || p.StoreValue? || p.UndoValue? || p.UndoTail? || p.UndoFree?
  }

  /** A producer that holds no blocks outside the index is named by no role. */
  lemma RolesAfterProducer(role: map<BlockId, Role>, live: map<nat, BlockId>, prod: Producer, prod': Producer,
                           chain: seq<BlockId>, chain': seq<BlockId>, con: map<Thread, Consumer>)
    requires RolesOk(role, live, prod, chain, con) && !HoldsBlocks(prod)
    ensures RolesOk(role, live, prod', chain', con)
  {
    forall id | id in role ensures RoleOk(id, role[id], live, prod', chain', con) {
      assert RoleOk(id, role[id], live, prod, chain, con);
    }
  }

  /** Changing only the producer's own position. */
  lemma ProducerMoveKeeps(s: State, s': State)
    requires Inv(s) && s' == s.(prod := s'.prod, todo := s'.todo, chain := s'.chain) && !HoldsBlocks(s.prod)
    requires X.Shape(s.ix) && ProducerOk(s')
    ensures Inv(s')
  {
    hide T.Inv, X.Inv, StoredOk, BlocksOk, RolesOk, CoverOk, HistoryOk, ConsumersOk, ProducerOk, X.Shape;
    RolesAfterProducer(s.role, s.ix.live, s.prod, s'.prod, s.chain, s'.chain, s.con);
  }

  lemma GiveUpOk(tail: nat, size: nat, ix: X.Index, chain: seq<BlockId>, count: map<BlockId, nat>,
                 role: map<BlockId, Role>, n: nat)
    requires X.Shape(ix) && Inserting(ix, chain, BlocksFor(tail), BlocksFor(tail + size), n, n, None)
    ensures
      ProducingOk(if chain == [] then Ready else UndoValue(BlocksFor(tail)), tail, size, ix, chain, count, role)
  {
    hide BlocksFor, X.Shape;
  }

  lemma InvProducer(s: State)
    requires Inv(s)
    ensures X.Shape(s.ix) && ProducerOk(s)
  {
  }

  /** The room check lets a block in exactly when it ends within reach of the head. */
  lemma NotFullIsRoom(head: nat, n: nat)
    requires head <= Base(n) < head + HALF
    ensures !Full(head, n) <==> Within(Base(n + 1), head)
  {
    hide Base, Wrap;
    BaseNext(n);
    CircularLessIsLess(head, Base(n) + BLOCK_SIZE);
    WrapDifference(Base(n), head);
    WrapOnce(Base(n) - head);
  }

  lemma HeadBelowNext(s: State, n: nat)
    requires Inv(s) && n >= BlocksFor(s.q.sh.tail)
    ensures s.q.sh.head <= s.q.sh.tail <= Base(n)
  {
    hide Inv, Base, BlocksFor;
    InvIndices(s);
    BlocksForIs(s.q.sh.tail);
    if BlocksFor(s.q.sh.tail) < n {
      BaseOrder(BlocksFor(s.q.sh.tail), n);
    }
  }

  lemma LoadHeadKeeps(s: State, luck: Luck)
    requires Inv(s) && CanProduce(s, luck) && s.prod.LoadHead?
    ensures Inv(Produce(s, luck))
  {
    hide Inv, X.Shape, BlocksFor, TailOk, FilledOk, Full, Base;
    InvProducer(s);
    var n := s.prod.n;
    HeadBelowNext(s, n);
    GiveUpOk(s.q.sh.tail, |s.todo|, s.ix, s.chain, s.count, s.role, n);
    if !Full(s.q.sh.head, n) {
      NotFullIsRoom(s.q.sh.head, n);
    }
    MovedFilled(s.prod, Produce(s, luck).prod, s.q.sh.tail, s.todo, s.history, s.filled);
    ProducerMoveKeeps(s, Produce(s, luck));
  }

  predicate Filling(p: Producer) {
    p.Write? || p.StoreIndex?
  }

  lemma MovedFilled(prod: Producer, prod': Producer, tail: nat, todo: seq<Item>, history: seq<Item>, filled: seq<Item>)
    requires FilledOk(prod, tail, todo, history, filled) && !Filling(prod) && !Filling(prod')
    ensures FilledOk(prod', tail, todo, history, filled)
  {
  }

  lemma TestSlotKeeps(s: State, luck: Luck)
    requires Inv(s) && CanProduce(s, luck) && s.prod.TestSlot?
    requires luck.NewIndex? ==> X.SlotFree(s.ix.entries[NewEntry(s)])
    ensures Inv(Produce(s, luck))
  {
    hide Inv, BlocksFor, TailOk, Base;
    InvProducer(s);
    GiveUpOk(s.q.sh.tail, |s.todo|, s.ix, s.chain, s.count, s.role, s.prod.n);
    ProducerMoveKeeps(s, Produce(s, luck));
  }

  lemma RequisitionFails(s: State, luck: Luck)
    requires Inv(s) && CanProduce(s, luck) && s.prod.Requisition? && !luck.NewBlock?
    ensures Inv(Produce(s, luck))
  {
    hide Inv, BlocksFor, TailOk, Base, X.Shape;
    InvProducer(s);
    ProducerMoveKeeps(s, Produce(s, luck));
  }

  lemma CallKeeps(s: State, items: seq<Item>)
    requires Inv(s) && s.prod == Ready
    ensures Inv(Call(s, items))
  {
    hide Inv, ProducerOk, X.Shape, AfterBlock;
    InvProducer(s);
    ProducerAfterCall(s, items);
    ProducerMoveKeeps(s, Call(s, items));
  }

  lemma ProducerAfterCall(s: State, items: seq<Item>)
    requires X.Shape(s.ix) && ProducerOk(s) && s.prod == Ready
    ensures ProducerOk(Call(s, items))
  {
    hide TailOk, Base, X.Shape, BlocksFor, FilledOk;
    BlocksForOrder(s.q.sh.tail, s.q.sh.tail + |items|);
    FilledAfterCall(s, items);
  }

  lemma FilledAfterCall(s: State, items: seq<Item>)
    requires s.prod == Ready && FilledOk(s.prod, s.q.sh.tail, s.todo, s.history, s.filled)
    ensures FilledOk(Call(s, items).prod, s.q.sh.tail, items, s.history, s.filled)
  {
    hide BlocksFor;
    assert s.history + items[..0] == s.history;
    assert |items| == 0 ==> s.history + items == s.history;
  }

  /** The index changes but its live blocks do not, and the producer holds no block. */
  lemma IndexMoveKeeps(s: State, s': State)
    requires Inv(s) && s' == s.(prod := s'.prod, ix := s'.ix) && !HoldsBlocks(s.prod)
    requires X.Inv(s'.ix) && X.Steady(s.ix, s'.ix) && s'.ix.live == s.ix.live
    requires X.Shape(s'.ix) && ProducerOk(s')
    ensures Inv(s')
  {
    hide T.Inv, X.Inv, StoredOk, BlocksOk, RolesOk, CoverOk, HistoryOk, ConsumersOk, ProducerOk, X.Shape, X.Steady;
    RolesAfterProducer(s.role, s.ix.live, s.prod, s'.prod, s.chain, s'.chain, s.con);
    ConsumersAtRest(s, s');
  }

  /** After growing, the slot of the next block is fresh: the assert at line 2825. */
  lemma GrownSlotIsInvalid(ix: X.Index, garbage: seq<Option<BlockId>>)
    requires X.Inv(ix) && |garbage| == ix.Cur().cap && X.Shape(X.Grow(ix, garbage))
    ensures
      var ix' := X.Grow(ix, garbage);
      var h := ix'.Cur();
      X.NewTail(h) == ix.Cur().cap && h.slots[ix.Cur().cap] == ix.Cur().cap && ix'.entries[ix.Cur().cap].key == None
  {
    hide X.HeadersOk, X.WindowOk, X.ValuesOk, X.HeaderShape;
  }

  lemma GrowSlotKeeps(s: State, luck: Luck)
    requires Inv(s) && CanProduce(s, luck) && s.prod.TestSlot? && luck.NewIndex?
    requires !X.SlotFree(s.ix.entries[NewEntry(s)])
    ensures Inv(Produce(s, luck))
  {
    hide Inv, BlocksFor, TailOk, FilledOk, RoomOk, Base, X.HeadersOk, X.WindowOk, X.ValuesOk, X.Grow, X.Shape, X.Steady;
    InvProducer(s);
    InvIndex(s);
    X.GrowKeeps(s.ix, luck.garbage);
    X.GrowIsSteady(s.ix, luck.garbage);
    GrownParts(s.ix, luck.garbage);
    SteadyShape(s.ix, X.Grow(s.ix, luck.garbage));
    GrownSlotIsInvalid(s.ix, luck.garbage);
    HeaderIsShaped(X.Grow(s.ix, luck.garbage), |X.Grow(s.ix, luck.garbage).headers| - 1);
    MovedFilled(s.prod, StoreKey(s.prod.n), s.q.sh.tail, s.todo, s.history, s.filled);
    MovedRoom(s.prod, StoreKey(s.prod.n), s.q.sh.tail, s.q.sh.head, s.chain);
    IndexMoveKeeps(s, Produce(s, luck));
  }

  lemma GrownParts(ix: X.Index, garbage: seq<Option<BlockId>>)
    requires X.Shape(ix) && |garbage| == ix.Cur().cap
    ensures
      var ix' := X.Grow(ix, garbage);
      ix'.next == ix.next && ix'.raw == ix.raw && ix'.live == ix.live && ix'.lo == ix.lo
  {
  }

  lemma MovedRoom(prod: Producer, prod': Producer, tail: nat, head: nat, chain: seq<BlockId>)
    requires RoomOk(prod, tail, head, chain) && Allocating(prod) && (Allocating(prod') || !(Filling(prod') || prod'.LoadHead?))
    ensures RoomOk(prod', tail, head, chain)
  {
  }

  lemma InsertingFirst(s: State)
    requires X.Shape(s.ix) && s.prod.StoreKey? && ProducerOk(s) && s.ix.next > BlocksFor(s.q.sh.tail)
    ensures BlocksFor(s.q.sh.tail) in s.ix.live
  {
    hide X.Shape, TailOk, FilledOk, RoomOk, BlocksFor, ChainLive;
    ChainAt(s.ix.live, s.chain, BlocksFor(s.q.sh.tail), 0, 0);
  }

  lemma ChainAt(live: map<nat, BlockId>, chain: seq<BlockId>, f: nat, a: nat, j: nat)
    requires ChainLive(live, chain, f, a) && a <= j < |chain|
    ensures f + j in live && live[f + j] == chain[j]
  {
    assert InChain(live, chain, f, j);
  }

  /** Inserting a key never overwrites the key of a block at or above the first one of the call. */
  lemma StoreKeyLo(s: State)
    requires Inv(s) && s.prod.StoreKey?
    ensures X.Shape(s.ix) && X.StoreKey(s.ix).lo <= BlocksFor(s.q.sh.tail)
  {
    hide T.Inv, StoredOk, BlocksOk, RolesOk, CoverOk, HistoryOk, ConsumersOk, TailOk, FilledOk, RoomOk, BlocksFor,
      X.HeadersOk, X.Slot, X.InWindow, X.Divides;
    var ix := s.ix;
    var f := BlocksFor(s.q.sh.tail);
    if ix.next == ix.hi && ix.hi == ix.lo + ix.Cur().cap && ix.lo == f {
      HeaderIsShaped(ix, |ix.headers| - 1);
      X.NewTailIsNext(ix);
      X.FullTurn(ix.Cur(), ix.lo, ix.next);
      assert X.ValueOk(ix, ix.lo);
      InsertingFirst(s);
    }
  }

  lemma StoreKeyKeeps(s: State, luck: Luck)
    requires Inv(s) && CanProduce(s, luck) && s.prod.StoreKey?
    ensures Inv(Produce(s, luck))
  {
    hide Inv, BlocksFor, TailOk, FilledOk, RoomOk, Base, X.HeadersOk, X.WindowOk, X.ValuesOk, X.Shape, X.Steady, ChainLive;
    InvProducer(s);
    InvIndex(s);
    X.StoreKeyKeeps(s.ix);
    X.StoreKeyIsSteady(s.ix);
    StoreKeyLo(s);
    MovedFilled(s.prod, StoreTail(s.prod.n), s.q.sh.tail, s.todo, s.history, s.filled);
    MovedRoom(s.prod, StoreTail(s.prod.n), s.q.sh.tail, s.q.sh.head, s.chain);
    IndexMoveKeeps(s, Produce(s, luck));
  }

  lemma StoreTailKeeps(s: State, luck: Luck)
    requires Inv(s) && CanProduce(s, luck) && s.prod.StoreTail?
    ensures Inv(Produce(s, luck))
  {
    hide Inv, BlocksFor, TailOk, FilledOk, RoomOk, Base, X.HeadersOk, X.WindowOk, X.ValuesOk, X.Shape, X.Steady, ChainLive;
    InvProducer(s);
    InvIndex(s);
    HeaderIsShaped(s.ix, |s.ix.headers| - 1);
    X.StoreTailKeeps(s.ix);
    X.SetTailIsSteady(s.ix, X.NewTail(s.ix.Cur()), s.ix.next + 1);
    MovedFilled(s.prod, Requisition(s.prod.n), s.q.sh.tail, s.todo, s.history, s.filled);
    MovedRoom(s.prod, Requisition(s.prod.n), s.q.sh.tail, s.q.sh.head, s.chain);
    IndexMoveKeeps(s, Produce(s, luck));
  }

  lemma RewindTailKeeps(s: State, luck: Luck)
    requires Inv(s) && CanProduce(s, luck) && s.prod.RewindTail?
    ensures Inv(Produce(s, luck))
  {
    hide Inv, BlocksFor, TailOk, FilledOk, Base, X.HeadersOk, X.WindowOk, X.ValuesOk, X.Shape, X.Steady, ChainLive;
    InvProducer(s);
    InvIndex(s);
    HeaderIsShaped(s.ix, |s.ix.headers| - 1);
    X.RewindKeeps(s.ix);
    X.SetTailIsSteady(s.ix, (s.ix.Cur().tail - 1) % s.ix.Cur().cap, s.ix.next - 1);
    MovedFilled(s.prod, DropValue(s.prod.n), s.q.sh.tail, s.todo, s.history, s.filled);
    IndexMoveKeeps(s, Produce(s, luck));
  }

  lemma DropValueKeeps(s: State, luck: Luck)
    requires Inv(s) && CanProduce(s, luck) && s.prod.DropValue?
    ensures Inv(Produce(s, luck))
  {
    hide Inv, BlocksFor, TailOk, FilledOk, Base, X.HeadersOk, X.WindowOk, X.ValuesOk, X.Shape, X.Steady, ChainLive;
    InvProducer(s);
    InvIndex(s);
    NewEntryIsNext(s);
    var s' := Produce(s, luck);
    X.DropValueKeeps(s.ix, NewEntry(s));
    X.ValueIsSteady(s.ix, s'.ix);
    GiveUpOk(s.q.sh.tail, |s.todo|, s'.ix, s.chain, s.count, s.role, s.prod.n);
    MovedFilled(s.prod, s'.prod, s.q.sh.tail, s.todo, s.history, s.filled);
    IndexMoveKeeps(s, s');
  }

  lemma NewEntryIsNext(s: State)
    requires X.Inv(s.ix)
    ensures NewEntry(s) == X.Ent(s.ix.Cur(), s.ix.next)
  {
    hide X.HeadersOk, X.ValuesOk, X.Slot;
    X.NewTailIsNext(s.ix);
  }

  // ---------------------------------------------------------------- the producer takes and fills blocks

  lemma TakeBlockKeeps(s: State, luck: Luck)
    requires Inv(s) && CanProduce(s, luck) && s.prod.Requisition? && luck.NewBlock?
    ensures Inv(Produce(s, luck))
  {
    hide T.Inv, X.Inv, StoredOk, BlocksOk, RolesOk, CoverOk, HistoryOk, ConsumersOk, X.Shape, BlocksFor, TailOk,
      FilledOk, ChainLive, X.Steady, Base;
    InvShape(s);
    var s' := Produce(s, luck);
    Steadiness(s.ix);
    ConsumersAtRest(s, s');
    BlocksAfterTake(s.ix.live, s.count, s.done, s.role, luck.id);
    RolesAfterTake(s.role, s.ix.live, s.prod, s'.prod, s.chain, s.con, luck.id);
    MovedFilled(s.prod, s'.prod, s.q.sh.tail, s.todo, s.history, s.filled);
  }

  lemma BlocksAfterTake(live: map<nat, BlockId>, count: map<BlockId, nat>, done: set<nat>, role: map<BlockId, Role>, id: BlockId)
    requires BlocksOk(live, count, done, role) && id !in role
    ensures BlocksOk(live, count, done, role[id := Taken])
  {
    forall m | m in live ensures BlockOk(m, live[m], count, done, role[id := Taken]) {
      assert BlockOk(m, live[m], count, done, role);
    }
  }

  lemma RolesAfterTake(role: map<BlockId, Role>, live: map<nat, BlockId>, prod: Producer, prod': Producer,
                       chain: seq<BlockId>, con: map<Thread, Consumer>, id: BlockId)
    requires RolesOk(role, live, prod, chain, con) && !HoldsBlocks(prod) && prod'.ResetCount? && prod'.id == id
    ensures RolesOk(role[id := Taken], live, prod', chain, con)
  {
    forall b | b in role && b != id ensures RoleOk(b, role[b], live, prod', chain, con) {
      assert RoleOk(b, role[b], live, prod, chain, con);
    }
  }

  lemma ResetCountKeeps(s: State, luck: Luck)
    requires Inv(s) && CanProduce(s, luck) && s.prod.ResetCount?
    ensures Inv(Produce(s, luck))
  {
    hide T.Inv, X.Inv, StoredOk, BlocksOk, RolesOk, CoverOk, HistoryOk, ConsumersOk, X.Shape, BlocksFor, TailOk,
      FilledOk, ChainLive, X.Steady, Base;
    InvShape(s);
    var s' := Produce(s, luck);
    BlocksAfterReset(s.ix.live, s.count, s.done, s.role, s.prod.id);
    RolesAfterReset(s.role, s.ix.live, s.prod, s'.prod, s.chain, s.con);
    MovedFilled(s.prod, s'.prod, s.q.sh.tail, s.todo, s.history, s.filled);
  }

  lemma BlocksAfterReset(live: map<nat, BlockId>, count: map<BlockId, nat>, done: set<nat>, role: map<BlockId, Role>, id: BlockId)
    requires BlocksOk(live, count, done, role) && id in role && role[id] == Taken
    ensures BlocksOk(live, count[id := 0], done, role)
  {
    forall m | m in live ensures BlockOk(m, live[m], count[id := 0], done, role) {
      assert BlockOk(m, live[m], count, done, role);
    }
  }

  lemma RolesAfterReset(role: map<BlockId, Role>, live: map<nat, BlockId>, prod: Producer, prod': Producer,
                        chain: seq<BlockId>, con: map<Thread, Consumer>)
    requires RolesOk(role, live, prod, chain, con) && prod.ResetCount? && prod' == StoreValue(prod.n, prod.id)
    ensures RolesOk(role, live, prod', chain, con)
  {
    forall b | b in role ensures RoleOk(b, role[b], live, prod', chain, con) {
      assert RoleOk(b, role[b], live, prod, chain, con);
    }
  }

  /** A new block is empty: no index of it was completed. */
  lemma NewBlockIsEmpty(s: State, n: nat)
    requires Inv(s) && n >= BlocksFor(s.q.sh.tail)
    ensures DoneIn(s.done, n) == {}
  {
    hide Inv, BlockOf, BlocksFor;
    InvIndices(s);
    if DoneIn(s.done, n) != {} {
      var k :| k in DoneIn(s.done, n);
      BlocksForSplits(s.q.sh.tail, k);
    }
  }

  lemma StoredAfterStore(live: map<nat, BlockId>, mem: map<(BlockId, nat), Item>, filled: seq<Item>,
                         delivered: map<nat, Item>, done: set<nat>, n: nat, id: BlockId)
    requires StoredOk(live, mem, filled, delivered, done) && n !in live
    ensures StoredOk(live[n := id], mem, filled, delivered, done)
  {
    hide BlockOf, Offset;
    forall i | 0 <= i < |filled| && i !in delivered ensures Stored(live[n := id], mem, filled, i) {
      assert Stored(live, mem, filled, i);
    }
  }

  lemma BlocksAfterStore(live: map<nat, BlockId>, count: map<BlockId, nat>, done: set<nat>, role: map<BlockId, Role>,
                         n: nat, id: BlockId)
    requires BlocksOk(live, count, done, role) && n !in live && id in role && role[id] == Taken
    requires id in count && count[id] == 0 && DoneIn(done, n) == {}
    ensures BlocksOk(live[n := id], count, done, role[id := Live(n)])
  {
    var live' := live[n := id];
    forall m | m in live' ensures BlockOk(m, live'[m], count, done, role[id := Live(n)]) {
      if m != n {
        assert BlockOk(m, live[m], count, done, role);
      }
    }
  }

  lemma RolesAfterStore(role: map<BlockId, Role>, live: map<nat, BlockId>, prod: Producer, prod': Producer,
                        chain: seq<BlockId>, chain': seq<BlockId>, con: map<Thread, Consumer>, n: nat, id: BlockId)
    requires RolesOk(role, live, prod, chain, con) && n !in live && prod.StoreValue? && prod.id == id
    ensures RolesOk(role[id := Live(n)], live[n := id], prod', chain', con)
  {
    forall b | b in role && b != id ensures RoleOk(b, role[b], live[n := id], prod', chain', con) {
      assert RoleOk(b, role[b], live, prod, chain, con);
    }
  }

  lemma ProducerAfterStore(s: State, luck: Luck)
    requires X.Shape(s.ix) && ProducerOk(s) && CanProduce(s, luck) && s.prod.StoreValue?
    requires X.Shape(Produce(s, luck).ix)
    ensures ProducerOk(Produce(s, luck))
  {
    hide X.Shape, BlocksFor, X.HeaderShape, Base, FilledOk, NextSlotFree, RoomOk, Inserting, Allocated, ProducingOk, TailOk;
    var s' := Produce(s, luck);
    AfterBlocksFilled(s, s');
    ProducingAfterStore(s, s');
    RoomAfterStore(s, s');
    StoringAbove(s);
    TailKept(s.q.sh.tail, s.ix.live, s'.ix.live, s.tailBlock);
  }

  lemma StoringAbove(s: State)
    requires X.Shape(s.ix) && s.prod.StoreValue?
    requires ProducingOk(s.prod, s.q.sh.tail, |s.todo|, s.ix, s.chain, s.count, s.role)
    ensures s.ix.next == s.prod.n + 1 > BlocksFor(s.q.sh.tail)
  {
    hide X.Shape, BlocksFor, ChainLive, LiveBelow;
  }

  lemma ProducingAfterStore(s: State, s': State)
    requires X.Shape(s.ix) && X.Shape(s'.ix) && s.prod.StoreValue? && s.ix.next > 0
    requires ProducingOk(s.prod, s.q.sh.tail, |s.todo|, s.ix, s.chain, s.count, s.role)
    requires s'.prod == AfterBlock(s, s.prod.n + 1) && s'.chain == s.chain + [s.prod.id]
    requires s'.ix.live == s.ix.live[s.ix.next - 1 := s.prod.id] && s'.ix.raw == None && s'.ix.next == s.ix.next
    ensures ProducingOk(s'.prod, s.q.sh.tail, |s.todo|, s'.ix, s'.chain, s'.count, s'.role)
  {
    hide X.Shape, BlocksFor, ChainLive;
    var f := BlocksFor(s.q.sh.tail);
    assert ChainLive(s'.ix.live, s'.chain, f, 0) by {
      ChainGrows(s.ix.live, s.chain, f, s.prod.id);
    }
  }

  lemma ChainGrows(live: map<nat, BlockId>, chain: seq<BlockId>, f: nat, id: BlockId)
    requires ChainLive(live, chain, f, 0)
    ensures ChainLive(live[f + |chain| := id], chain + [id], f, 0)
  {
    var live', chain' := live[f + |chain| := id], chain + [id];
    forall j | 0 <= j < |chain'| ensures InChain(live', chain', f, j) {
      assert j < |chain| ==> InChain(live, chain, f, j);
    }
  }

  lemma RoomAfterStore(s: State, s': State)
    requires X.Shape(s.ix) && s.prod.StoreValue? && RoomOk(s.prod, s.q.sh.tail, s.q.sh.head, s.chain)
    requires s'.prod == AfterBlock(s, s.prod.n + 1) && |s'.chain| == |s.chain| + 1
    ensures RoomOk(s'.prod, s.q.sh.tail, s.q.sh.head, s'.chain)
  {
    hide X.Shape, BlocksFor, Base;
  }

  lemma TailKept(tail: nat, live: map<nat, BlockId>, live': map<nat, BlockId>, tailBlock: Option<BlockId>)
    requires TailOk(tail, live, tailBlock)
    requires var f := BlocksFor(tail); f > 0 && f - 1 in live ==> f - 1 in live' && live'[f - 1] == live[f - 1]
    ensures TailOk(tail, live', tailBlock)
  {
    hide BlocksFor, Base;
  }

  lemma AfterBlocksFilled(s: State, s': State)
    requires s.prod.StoreValue? && FilledOk(s.prod, s.q.sh.tail, s.todo, s.history, s.filled)
    requires s'.prod == AfterBlock(s, s.prod.n + 1)
    ensures FilledOk(s'.prod, s.q.sh.tail, s.todo, s.history, s.filled)
  {
    hide BlocksFor;
    assert s.history + s.todo[..0] == s.history;
    assert |s.todo| == 0 ==> s.history + s.todo == s.history;
  }

  lemma TailEntryIs(s: State)
    requires X.Inv(s.ix)
    ensures TailEntry(s) == X.Ent(s.ix.Cur(), s.ix.next - 1)
  {
    hide X.HeadersOk, X.ValuesOk, X.Slot;
  }

  lemma StoreValueKeeps(s: State, luck: Luck)
    requires Inv(s) && CanProduce(s, luck) && s.prod.StoreValue?
    ensures Inv(Produce(s, luck))
  {
    hide T.Inv, X.Inv, StoredOk, BlocksOk, RolesOk, CoverOk, HistoryOk, ConsumersOk, X.Shape, BlocksFor, TailOk,
      FilledOk, RoomOk, ChainLive, X.Steady, Base, AfterBlock, DoneIn;
    InvShape(s);
    var s' := Produce(s, luck);
    var n, id := s.prod.n, s.prod.id;
    TailEntryIs(s);
    X.StoreValueKeeps(s.ix, TailEntry(s), id);
    X.ValueIsSteady(s.ix, s'.ix);
    ConsumersAtRest(s, s');
    ProducerAfterStore(s, luck);
    NewBlockIsEmpty(s, n);
    StoredAfterStore(s.ix.live, s.mem, s.filled, s.delivered, s.done, n, id);
    BlocksAfterStore(s.ix.live, s.count, s.done, s.role, n, id);
    RolesAfterStore(s.role, s.ix.live, s.prod, s'.prod, s.chain, s'.chain, s.con, n, id);
  }

  // ---------------------------------------------------------------- the producer gives blocks back

  /** Block k is one of the new blocks, in the index, and nothing of it was dequeued. */
  ghost predicate TakesBack(s: State, k: nat) {
    var f := First(s);
    && f <= k < f + |s.chain| && k in s.ix.live && s.ix.live[k] == s.chain[k - f]
    && s.chain[k - f] in s.role && s.role[s.chain[k - f]] == Live(k)
  }

  /** What the producer knows about the block it takes back. */
  lemma UndoValueFinds(s: State)
    requires Inv(s) && s.prod.UndoValue?
    ensures TakesBack(s, s.prod.k)
  {
    hide Inv, X.Shape, BlocksFor, TailOk, FilledOk, RoomOk, ChainLive, ChainUndone, DoneIn;
    var k, f := s.prod.k, First(s);
    InvProducer(s);
    ChainAt(s.ix.live, s.chain, f, k - f, k - f);
    InvBlocks(s, k);
    NewBlockIsEmpty(s, k);
  }

  /** The producer's own lookup finds the entry of the block it takes back. */
  lemma UndoEntryIs(s: State, k: nat)
    requires X.Inv(s.ix) && UndoKey(s).Some?
    ensures X.HeaderShape(s.ix, s.ix.Cur()) && UndoEntry(s, k) == X.Ent(s.ix.Cur(), k)
  {
    hide X.LookUp, X.Slot, X.WindowOk, X.ValuesOk, X.HeadersOk;
    HeaderIsShaped(s.ix, |s.ix.headers| - 1);
    X.LookUpFindsSlot(s.ix, |s.ix.headers| - 1, s.ix.Cur().tail, UndoKey(s).value, k);
  }

  lemma StoredAfterUndo(live: map<nat, BlockId>, mem: map<(BlockId, nat), Item>, filled: seq<Item>,
                        delivered: map<nat, Item>, done: set<nat>, k: nat)
    requires StoredOk(live, mem, filled, delivered, done) && k >= BlocksFor(|filled|)
    ensures StoredOk(live - {k}, mem, filled, delivered, done)
  {
    hide BlockOf, Offset, BlocksFor;
    forall i: nat | i < |filled| ensures BlockOf(i) != k {
      BlocksForSplits(|filled|, i);
    }
    forall i | 0 <= i < |filled| && i !in delivered ensures Stored(live - {k}, mem, filled, i) {
      assert Stored(live, mem, filled, i);
    }
  }

  predicate GivingBack(p: Producer) {
    p.UndoValue? || p.UndoTail?
  }

  lemma RolesAfterUndo(role: map<BlockId, Role>, live: map<nat, BlockId>, prod: Producer, prod': Producer,
                       chain: seq<BlockId>, con: map<Thread, Consumer>, k: nat, j: nat)
    requires RolesOk(role, live, prod, chain, con) && GivingBack(prod) && GivingBack(prod')
    requires k in live && j < |chain| && chain[j] == live[k]
    ensures RolesOk(role[live[k] := Undone(j)], live - {k}, prod', chain, con)
  {
    var role', live' := role[live[k] := Undone(j)], live - {k};
    forall b | b in role' ensures RoleOk(b, role'[b], live', prod', chain, con) {
      assert b in role ==> RoleOk(b, role[b], live, prod, chain, con);
    }
  }

  lemma UndoingAfterValue(live: map<nat, BlockId>, role: map<BlockId, Role>, chain: seq<BlockId>, f: nat, k: nat)
    requires f <= k < f + |chain| && ChainLive(live, chain, f, k - f) && ChainUndone(role, chain, 0, k - f)
    requires chain[k - f] in role && role[chain[k - f]] == Live(k)
    ensures ChainLive(live - {k}, chain, f, k - f + 1)
    ensures ChainUndone(role[chain[k - f] := Undone(k - f)], chain, 0, k - f + 1)
  {
    forall j | k - f + 1 <= j < |chain| ensures InChain(live - {k}, chain, f, j) {
      assert InChain(live, chain, f, j);
    }
  }

  lemma ProducerAfterUndoValue(s: State, luck: Luck)
    requires X.Shape(s.ix) && ProducerOk(s) && CanProduce(s, luck) && s.prod.UndoValue? && X.Shape(Produce(s, luck).ix)
    requires var id := s.chain[s.prod.k - First(s)]; id in s.role && s.role[id] == Live(s.prod.k)
    ensures ProducerOk(Produce(s, luck))
  {
    hide X.Shape, BlocksFor, TailOk, FilledOk, RoomOk, ChainLive, ChainUndone, UndoEntry, UndoKey, Base;
    var s' := Produce(s, luck);
    UndoingAfterValue(s.ix.live, s.role, s.chain, First(s), s.prod.k);
    TailKept(s.q.sh.tail, s.ix.live, s'.ix.live, s.tailBlock);
    MovedFilled(s.prod, s'.prod, s.q.sh.tail, s.todo, s.history, s.filled);
    UndoRoom(s.prod, s'.prod, s.q.sh.tail, s.q.sh.head, s.chain);
  }

  lemma UndoRoom(prod: Producer, prod': Producer, tail: nat, head: nat, chain: seq<BlockId>)
    requires RoomOk(prod, tail, head, chain)
    requires GivingBack(prod') || prod'.UndoFree? || prod'.Ready?
    ensures RoomOk(prod', tail, head, chain)
  {
    hide BlocksFor, Base;
  }

  lemma UndoStillLive(s: State, s': State, k: nat)
    requires Inv(s) && k >= First(s) && s'.ix.live == s.ix.live - {k}
    ensures StillLive(s, s')
  {
    hide Inv, BlockOf, BlocksFor;
    InvIndices(s);
    forall i: nat | i < s.q.sh.head ensures BlockOf(i) != k {
      BlocksForSplits(s.q.sh.tail, i);
    }
  }

  lemma UndoValueKeeps(s: State, luck: Luck)
    requires Inv(s) && CanProduce(s, luck) && s.prod.UndoValue?
    ensures Inv(Produce(s, luck))
  {
    hide T.Inv, X.Inv, StoredOk, BlocksOk, RolesOk, CoverOk, HistoryOk, ConsumersOk, X.Shape, BlocksFor, TailOk,
      RoomOk, ProducingOk, X.Steady, UndoEntry, UndoKey, StillLive;
    InvShape(s);
    var s', k := Produce(s, luck), s.prod.k;
    UndoValueFinds(s);
    UndoEntryIs(s, k);
    X.ClearValueKeeps(s.ix, UndoEntry(s, k), k);
    X.ValueIsSteady(s.ix, s'.ix);
    UndoStillLive(s, s', k);
    ConsumersAtRest(s, s');
    FilledIsTail(s);
    StoredAfterUndo(s.ix.live, s.mem, s.filled, s.delivered, s.done, k);
    BlocksAfterClear(s.ix.live, s.count, s.done, s.role, k, Undone(k - First(s)));
    RolesAfterUndo(s.role, s.ix.live, s.prod, s'.prod, s.chain, s.con, k, k - First(s));
    ProducerAfterUndoValue(s, luck);
  }

  lemma FilledIsTail(s: State)
    requires Inv(s) && !Filling(s.prod)
    ensures s.filled == s.history && |s.filled| == s.q.sh.tail
  {
    hide T.Inv, X.Inv, StoredOk, BlocksOk, RolesOk, CoverOk, ConsumersOk, ProducingOk, TailOk, RoomOk, BlocksFor;
  }

  lemma RolesWhileUndoing(role: map<BlockId, Role>, live: map<nat, BlockId>, prod: Producer, prod': Producer,
                          chain: seq<BlockId>, con: map<Thread, Consumer>)
    requires RolesOk(role, live, prod, chain, con) && GivingBack(prod) && (GivingBack(prod') || prod' == UndoFree(0))
    ensures RolesOk(role, live, prod', chain, con)
  {
    forall b | b in role ensures RoleOk(b, role[b], live, prod', chain, con) {
      assert RoleOk(b, role[b], live, prod, chain, con);
    }
  }

  lemma UndoTailKeeps(s: State, luck: Luck)
    requires Inv(s) && CanProduce(s, luck) && s.prod.UndoTail?
    ensures Inv(Produce(s, luck))
  {
    hide T.Inv, X.Inv, StoredOk, BlocksOk, RolesOk, CoverOk, HistoryOk, ConsumersOk, X.Shape, BlocksFor, TailOk,
      FilledOk, RoomOk, ChainLive, ChainUndone, X.Steady;
    InvShape(s);
    var s' := Produce(s, luck);
    HeaderIsShaped(s.ix, |s.ix.headers| - 1);
    X.RewindKeeps(s.ix);
    X.SetTailIsSteady(s.ix, (s.ix.Cur().tail - 1) % s.ix.Cur().cap, s.ix.next - 1);
    ConsumersAtRest(s, s');
    RolesWhileUndoing(s.role, s.ix.live, s.prod, s'.prod, s.chain, s.con);
    MovedFilled(s.prod, s'.prod, s.q.sh.tail, s.todo, s.history, s.filled);
    UndoRoom(s.prod, s'.prod, s.q.sh.tail, s.q.sh.head, s.chain);
  }

  lemma RolesAfterUndoFree(role: map<BlockId, Role>, live: map<nat, BlockId>, prod: Producer, prod': Producer,
                           chain: seq<BlockId>, con: map<Thread, Consumer>)
    requires RolesOk(role, live, prod, chain, con) && prod.UndoFree? && prod.j < |chain|
    requires prod' == if prod.j + 1 < |chain| then UndoFree(prod.j + 1) else Ready
    ensures RolesOk(role - {chain[prod.j]}, live, prod', chain, con)
  {
    var role' := role - {chain[prod.j]};
    forall b | b in role' ensures RoleOk(b, role'[b], live, prod', chain, con) {
      assert RoleOk(b, role[b], live, prod, chain, con);
    }
  }

  lemma UndoneLater(role: map<BlockId, Role>, chain: seq<BlockId>, j: nat)
    requires j < |chain| && ChainUndone(role, chain, j, |chain|)
    ensures ChainUndone(role - {chain[j]}, chain, j + 1, |chain|)
    ensures chain[j] in role && role[chain[j]] == Undone(j)
  {
  }

  lemma UndoFreeKeeps(s: State, luck: Luck)
    requires Inv(s) && CanProduce(s, luck) && s.prod.UndoFree?
    ensures Inv(Produce(s, luck))
  {
    hide T.Inv, X.Inv, StoredOk, BlocksOk, RolesOk, CoverOk, HistoryOk, ConsumersOk, X.Shape, BlocksFor, TailOk,
      FilledOk, RoomOk, ChainLive, ChainUndone, X.Steady;
    InvShape(s);
    var s', id := Produce(s, luck), s.chain[s.prod.j];
    UndoneLater(s.role, s.chain, s.prod.j);
    Steadiness(s.ix);
    ConsumersAtRest(s, s');
    BlocksAfterFree(s.ix.live, s.count, s.done, s.role, id);
    RolesAfterUndoFree(s.role, s.ix.live, s.prod, s'.prod, s.chain, s.con);
    MovedFilled(s.prod, s'.prod, s.q.sh.tail, s.todo, s.history, s.filled);
    UndoRoom(s.prod, s'.prod, s.q.sh.tail, s.q.sh.head, s.chain);
  }

  // ---------------------------------------------------------------- the producer writes and publishes

  /** An element is written to the block that the index has for it. */
  lemma BlockForIsLive(s: State, i: nat)
    requires Inv(s) && s.prod == Write(i)
    ensures BlockFor(s, i).Some? && BlockOf(i) in s.ix.live && s.ix.live[BlockOf(i)] == BlockFor(s, i).value
    ensures i == |s.filled| && s.q.sh.tail <= i < s.q.sh.tail + |s.todo|
  {
    hide Inv, X.Shape, BlocksFor, BlockOf, RoomOk, ChainLive, LiveBelow, Base;
    InvProducer(s);
    InvIndices(s);
    var f, n := First(s), BlockOf(i);
    BlocksForSplits(s.q.sh.tail, i);
    BlocksForSplits(s.q.sh.tail + |s.todo|, i);
    if n >= f {
      ChainAt(s.ix.live, s.chain, f, 0, n - f);
    }
  }

  lemma StoredAfterWrite(live: map<nat, BlockId>, mem: map<(BlockId, nat), Item>, filled: seq<Item>,
                         delivered: map<nat, Item>, done: set<nat>, count: map<BlockId, nat>, role: map<BlockId, Role>,
                         item: Item)
    requires StoredOk(live, mem, filled, delivered, done) && BlocksOk(live, count, done, role)
    requires BlockOf(|filled|) in live
    ensures StoredOk(live, mem[(live[BlockOf(|filled|)], Offset(|filled|)) := item], filled + [item], delivered, done)
  {
    hide BlockOf, Offset, BlocksOk;
    var i := |filled|;
    var mem', filled' := mem[(live[BlockOf(i)], Offset(i)) := item], filled + [item];
    forall j | 0 <= j < |filled'| && j !in delivered ensures Stored(live, mem', filled', j) {
      if j < i {
        assert Stored(live, mem, filled, j);
        if live[BlockOf(j)] == live[BlockOf(i)] {
          LiveApart(live, count, done, role, BlockOf(j), BlockOf(i));
          OffsetsDiffer(j, i);
        }
      }
    }
  }

  lemma ProducerAfterWrite(s: State, s': State)
    requires X.Shape(s.ix) && ProducerOk(s) && s.prod.Write? && |s.history| == s.q.sh.tail
    requires s.q.sh.tail <= s.prod.i < s.q.sh.tail + |s.todo|
    requires s' == s.(mem := s'.mem, filled := s.filled + [s.todo[s.prod.i - s.q.sh.tail]], prod := s'.prod)
    requires s'.prod == if s.prod.i + 1 < s.q.sh.tail + |s.todo| then Write(s.prod.i + 1) else StoreIndex
    ensures ProducerOk(s')
  {
    hide X.Shape, BlocksFor, Allocated, TailOk, Base;
    var n := s.prod.i - s.q.sh.tail;
    assert s.todo[..n] + [s.todo[n]] == s.todo[..n + 1];
    assert s'.filled == s.history + s.todo[..n + 1];
    assert n + 1 == |s.todo| ==> s.todo[..n + 1] == s.todo;
  }

  lemma WriteKeeps(s: State, luck: Luck)
    requires Inv(s) && CanProduce(s, luck) && s.prod.Write?
    ensures Inv(Produce(s, luck))
  {
    hide T.Inv, X.Inv, StoredOk, BlocksOk, RolesOk, CoverOk, ConsumersOk, X.Shape, ProducerOk, BlockOf, Offset, BlockFor;
    InvShape(s);
    var s' := Produce(s, luck);
    BlockForIsLive(s, s.prod.i);
    StoredAfterWrite(s.ix.live, s.mem, s.filled, s.delivered, s.done, s.count, s.role, s.todo[s.prod.i - s.q.sh.tail]);
    RolesAfterProducer(s.role, s.ix.live, s.prod, s'.prod, s.chain, s.chain, s.con);
    ProducerAfterWrite(s, s');
  }

  lemma HistoryAfterPublish(tail: nat, tail': nat, head: nat, history: seq<Item>, history': seq<Item>,
                            delivered: map<nat, Item>, done: set<nat>)
    requires HistoryOk(tail, head, history, delivered, done) && history <= history' && |history'| == tail'
    ensures HistoryOk(tail', head, history', delivered, done)
  {
  }

  lemma TailAfterPublish(s: State)
    requires X.Shape(s.ix) && ProducerOk(s) && s.prod.StoreIndex?
    ensures TailOk(s.q.sh.tail + |s.todo|, s.ix.live, EndBlock(s))
  {
    hide X.Shape, BlocksFor, ChainLive, LiveBelow, FilledOk, RoomOk, Base;
    var f := First(s);
    BlocksForOrder(s.q.sh.tail, s.q.sh.tail + |s.todo|);
    if s.chain != [] {
      ChainAt(s.ix.live, s.chain, f, 0, |s.chain| - 1);
    }
  }

  lemma ProducerAfterPublish(s: State, s': State)
    requires X.Shape(s.ix) && ProducerOk(s) && s.prod.StoreIndex? && s'.q.sh.tail == s.q.sh.tail + |s.todo|
    requires s'.ix == s.ix && s'.prod == Ready && s'.history == s'.filled && s'.q.sh.head == s.q.sh.head
    requires s'.tailBlock == EndBlock(s)
    ensures ProducerOk(s')
  {
    hide X.Shape, BlocksFor, ChainLive, TailOk, Base, EndBlock;
    TailAfterPublish(s);
    BlocksForOrder(s.q.sh.tail, s.q.sh.tail + |s.todo|);
  }

  lemma StoreIndexKeeps(s: State, luck: Luck)
    requires Inv(s) && CanProduce(s, luck) && s.prod.StoreIndex?
    ensures Inv(Produce(s, luck))
  {
    hide T.Inv, X.Inv, StoredOk, BlocksOk, RolesOk, CoverOk, HistoryOk, ConsumersOk, X.Shape, ProducerOk, EndBlock;
    InvShape(s);
    var s' := Produce(s, luck);
    T.PublishKeepsInv(s.q, |s.todo|);
    InvIndices(s);
    FilledAll(s);
    HistoryAfterPublish(s.q.sh.tail, s'.q.sh.tail, s.q.sh.head, s.history, s'.history, s.delivered, s.done);
    RolesAfterProducer(s.role, s.ix.live, s.prod, s'.prod, s.chain, s.chain, s.con);
    ProducerAfterPublish(s, s');
  }

  lemma FilledAll(s: State)
    requires X.Shape(s.ix) && ProducerOk(s) && s.prod.StoreIndex?
    ensures s.filled == s.history + s.todo
  {
    hide X.Shape, BlocksFor, ProducingOk, TailOk, RoomOk;
  }

  lemma ProduceKeeps(s: State, luck: Luck)
    requires Inv(s) && CanProduce(s, luck)
    ensures Inv(Produce(s, luck))
  {
    hide Inv, X.Shape, CanProduce, Produce, NewEntry, X.SlotFree;
    match s.prod
    case Ready => assert Produce(s, luck) == s by { ReadyRests(s, luck); }
    case LoadHead(_) => LoadHeadKeeps(s, luck);
    case TestSlot(_) => TestSlotAlways(s, luck);
    case StoreKey(_) => StoreKeyKeeps(s, luck);
    case StoreTail(_) => StoreTailKeeps(s, luck);
    case Requisition(_) => if luck.NewBlock? { TakeBlockKeeps(s, luck); } else { RequisitionFails(s, luck); }
    case ResetCount(_, _) => ResetCountKeeps(s, luck);
    case StoreValue(_, _) => StoreValueKeeps(s, luck);
    case RewindTail(_) => RewindTailKeeps(s, luck);
    case DropValue(_) => DropValueKeeps(s, luck);
    case UndoValue(_) => UndoValueKeeps(s, luck);
    case UndoTail(_) => UndoTailKeeps(s, luck);
    case UndoFree(_) => UndoFreeKeeps(s, luck);
    case Write(_) => WriteKeeps(s, luck);
    case StoreIndex => StoreIndexKeeps(s, luck);
  }

  lemma ReadyRests(s: State, luck: Luck)
    requires CanProduce(s, luck) && s.prod.Ready?
    ensures Produce(s, luck) == s
  {
  }

  lemma TestSlotAlways(s: State, luck: Luck)
    requires Inv(s) && CanProduce(s, luck) && s.prod.TestSlot?
    ensures Inv(Produce(s, luck))
  {
    hide Inv, Produce, X.Shape, NewEntry;
    InvShape(s);
    if luck.NewIndex? && !X.SlotFree(s.ix.entries[NewEntry(s)]) {
      GrowSlotKeeps(s, luck);
    } else {
      TestSlotKeeps(s, luck);
    }
  }
}
