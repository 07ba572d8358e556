/**
  A consumer completes blocks and retires them; the ticket protocol and the rest of the program go on. Every such access
  keeps the invariant of the queue.
*/
module ImplicitBlocks {
  import opened Blocks
  import T = Tickets
  import X = BlockIndex
  import opened ImplicitQueue
  import opened ImplicitConsumers

  // ---------------------------------------------------------------- a consumer completes a block

  /** The indices a consumer completes together lie in one block and were not completed before. */
  lemma DoneInGrows(done: set<nat>, n: nat, start: nat, i: nat)
    requires start < i && BlockOf(start) == n == BlockOf(i - 1)
    requires forall k :: start <= k < i ==> k !in done
    ensures |DoneIn(done + T.Range(start, i), n)| == |DoneIn(done, n)| + (i - start)
    ensures forall m :: m != n ==> DoneIn(done + T.Range(start, i), m) == DoneIn(done, m)
    ensures |DoneIn(done, n)| + (i - start) <= BLOCK_SIZE
  {
    hide BlockOf;
    var r := T.Range(start, i);
    forall k: nat | k in r ensures BlockOf(k) == n {
      BlockOfOrder(start, k);
      BlockOfOrder(k, i - 1);
    }
    assert DoneIn(done + r, n) == DoneIn(done, n) + r;
    forall m | m != n ensures DoneIn(done + r, m) == DoneIn(done, m) {
    }
    DoneInBound(done + r, n);
  }

  lemma DoneInBound(done: set<nat>, n: nat)
    ensures |DoneIn(done, n)| <= BLOCK_SIZE
  {
    hide BlockOf, Base;
    var all := T.Range(Base(n), Base(n) + BLOCK_SIZE);
    forall k | k in DoneIn(done, n) ensures k in all {
      InBlock(k);
    }
    T.SubsetSize(DoneIn(done, n), all);
  }

  /** What a consumer about to complete elements knows. */
  lemma SetEmptyFinds(s: State, t: Thread)
    requires Inv(s) && CanConsume(s, t) && s.con[t].SetEmpty?
    ensures
      var SetEmpty(g, p, i, id, start) := s.con[t];
      && BlockOf(start) == BlockOf(i - 1) && BlockOf(start) in s.ix.live && s.ix.live[BlockOf(start)] == id
      && BlockOk(BlockOf(start), id, s.count, s.done, s.role)
      && (forall k :: start <= k < i ==> k !in s.done && k in s.delivered && Holds(t, k, s.con, s.q.pc))
  {
    hide Inv, BlockOf, X.Shape, HeaderFits, SlotOf, BlockOk;
    InvParts(s, t);
    InvBlocks(s, BlockOf(s.con[t].start));
    ClaimBelowHead(s, t);
  }

  lemma InvBlocks(s: State, n: nat)
    requires Inv(s) && n in s.ix.live
    ensures BlockOk(n, s.ix.live[n], s.count, s.done, s.role)
    ensures BlocksOk(s.ix.live, s.count, s.done, s.role)
  {
  }

  /** The counter keeps counting, and the asserts at lines 1511 and 1534 hold: it never exceeds BLOCK_SIZE. */
  lemma BlocksAfterSetEmpty(live: map<nat, BlockId>, count: map<BlockId, nat>, done: set<nat>, role: map<BlockId, Role>,
                            n: nat, start: nat, i: nat, t: Thread)
    requires BlocksOk(live, count, done, role) && n in live && start < i && BlockOf(start) == n == BlockOf(i - 1)
    requires forall k :: start <= k < i ==> k !in done
    ensures
      var id := live[n];
      && id in count && count[id] + (i - start) <= BLOCK_SIZE && id in role && role[id] == Live(n)
      && var role' := if count[id] + (i - start) == BLOCK_SIZE then role[id := Retiring(n, t)] else role;
      BlocksOk(live, count[id := count[id] + (i - start)], done + T.Range(start, i), role')
  {
    hide BlockOf, T.Range;
    var id := live[n];
    assert BlockOk(n, id, count, done, role);
    DoneInGrows(done, n, start, i);
    var count', done' := count[id := count[id] + (i - start)], done + T.Range(start, i);
    var role' := if count'[id] == BLOCK_SIZE then role[id := Retiring(n, t)] else role;
    forall m | m in live ensures BlockOk(m, live[m], count', done', role') {
      assert BlockOk(m, live[m], count, done, role);
    }
  }

  lemma RolesAfterRetire(role: map<BlockId, Role>, live: map<nat, BlockId>, prod: Producer, chain: seq<BlockId>,
                         con: map<Thread, Consumer>, n: nat, t: Thread, c: Consumer)
    requires RolesOk(role, live, prod, chain, con) && n in live
    requires t in con && c.StoreNull? && c.id == live[n]
    ensures RolesOk(role[live[n] := Retiring(n, t)], live, prod, chain, con[t := c])
    requires !HasBlock(con[t])
  {
    var role', con' := role[live[n] := Retiring(n, t)], con[t := c];
    forall id | id in role' ensures RoleOk(id, role'[id], live, prod, chain, con') {
      assert id in role ==> RoleOk(id, role[id], live, prod, chain, con);
    }
  }

  lemma HistoryAfterSetEmpty(tail: nat, head: nat, history: seq<Item>, delivered: map<nat, Item>, done: set<nat>,
                             start: nat, i: nat)
    requires HistoryOk(tail, head, history, delivered, done)
    requires forall k :: start <= k < i ==> k in delivered
    ensures HistoryOk(tail, head, history, delivered, done + T.Range(start, i))
  {
  }

  lemma StoredAfterSetEmpty(live: map<nat, BlockId>, mem: map<(BlockId, nat), Item>, filled: seq<Item>,
                            delivered: map<nat, Item>, done: set<nat>, more: set<nat>)
    requires StoredOk(live, mem, filled, delivered, done)
    ensures StoredOk(live, mem, filled, delivered, done + more)
  {
    hide Stored;
  }

  lemma ClaimAfterSetEmpty(c: Consumer, c': Consumer, first: nat, end: nat, delivered: map<nat, Item>, done: set<nat>)
    requires c.SetEmpty? && ClaimOk(c, first, end, delivered, done)
    requires Cursor(c', first) == Pending(c', first) == c.i
    ensures ClaimOk(c', first, end, delivered, done + T.Range(c.start, c.i))
  {
  }

  lemma PlaceAfterSetEmpty(c: Consumer, c': Consumer, t: Thread, first: nat, end: nat, ix: X.Index,
                           role: map<BlockId, Role>, role': map<BlockId, Role>)
    requires X.Shape(ix) && c.SetEmpty? && PlaceOk(c, t, first, end, ix, role)
    requires c.start < end
    requires c' == NextBlock(c.g, c.p, c.i)
             || (c' == StoreNull(c.g, c.p, c.i, c.id) && c.id in role' && role'[c.id] == Retiring(BlockOf(c.start), t))
    ensures PlaceOk(c', t, first, end, ix, role')
  {
    hide X.Shape, X.Slot, X.Has, HeaderFits, BlockOf;
    FitsAt(ix, c.g, c.start, end, c.start);
    FitsLater(ix, c.g, c.start, c.i, end);
  }

  lemma SetEmptyOk(s: State, t: Thread)
    requires Inv(s) && CanConsume(s, t) && s.con[t].SetEmpty?
    ensures
      var s' := Consume(s, t);
      && X.Shape(s'.ix) && s'.con == s.con[t := s'.con[t]] && t in s'.q.pc
      && ConsumerOk(s'.con[t], t, s'.q.pc[t], s'.ix, s'.delivered, s'.done, s'.role)
      && !HasBlock(s.con[t]) && Pending(s'.con[t], s.q.pc[t].first) == s.con[t].i
  {
    hide Inv, BlockOf, X.Shape, PlaceOk, ClaimOk, T.Range;
    var s' := Consume(s, t);
    InvParts(s, t);
    RestBlock(s, t);
    ClaimAfterSetEmpty(s.con[t], s'.con[t], s.q.pc[t].first, End(s, t), s.delivered, s.done);
    PlaceAfterSetEmpty(s.con[t], s'.con[t], t, s.q.pc[t].first, End(s, t), s.ix, s.role, s'.role);
  }

  lemma FitsAt(ix: X.Index, g: nat, a: nat, end: nat, k: nat)
    requires X.Shape(ix) && HeaderFits(ix, g, a, end) && a <= k < end
    ensures g < |ix.headers| && X.Has(ix, ix.headers[g], BlockOf(k))
  {
  }

  lemma FitsLater(ix: X.Index, g: nat, a: nat, b: nat, end: nat)
    requires X.Shape(ix) && HeaderFits(ix, g, a, end) && a <= b
    ensures HeaderFits(ix, g, b, end)
  {
  }

  /** The part of ProducerOk that depends on counters and roles. */
  lemma ProducerAfterCount(s: State, s': State, n: nat)
    requires X.Shape(s.ix) && ProducerOk(s) && n in s.ix.live
    requires s.ix.live[n] in s.role && (s.role[s.ix.live[n]].Live? || s.role[s.ix.live[n]].Retiring?)
    requires s' == s.(count := s'.count, role := s'.role, done := s'.done, con := s'.con)
    requires forall id :: id in s.role && id != s.ix.live[n] ==> id in s'.role && s'.role[id] == s.role[id]
    requires forall id :: id in s.count && id != s.ix.live[n] ==> id in s'.count && s'.count[id] == s.count[id]
    ensures ProducerOk(s')
  {
    hide BlocksFor, Inserting, ChainLive, NextSlotFree, Allocated, TailOk, FilledOk, RoomOk;
  }

  /** Completing elements touches nothing that other consumers rely on. */
  lemma SetEmptyActs(s: State, t: Thread)
    requires CanConsume(s, t) && s.con[t].SetEmpty?
    requires s.con[t].id in s.role ==> s.role[s.con[t].id].Live?
    requires forall k :: s.con[t].start <= k < s.con[t].i ==> Holds(t, k, s.con, s.q.pc)
    ensures
      var s' := Consume(s, t);
      && s'.ix == s.ix && s'.q == s.q && s'.delivered == s.delivered && s'.con == s.con[t := s'.con[t]]
      && (forall k :: !Holds(t, k, s.con, s.q.pc) ==> (k in s'.done ==> k in s.done))
      && (forall id :: id in s.role && (s.role[id].Freed? || s.role[id].Retiring?) && s.role[id].t != t ==>
            id in s'.role && s'.role[id] == s.role[id])
  {
    hide X.Shape, BlockOf, Holds;
  }

  /** All consumers after one completed elements. */
  lemma ConsumersAfterSetEmpty(s: State, t: Thread, s': State)
    requires Inv(s) && CanConsume(s, t) && s.con[t].SetEmpty? && s' == Consume(s, t)
    requires s.con[t].id in s.role ==> s.role[s.con[t].id].Live?
    ensures X.Shape(s'.ix) && ConsumersOk(s'.con, s'.q.pc, s'.ix, s'.delivered, s'.done, s'.role)
  {
    hide Inv, ConsumerOk, ConsumersOk, X.Shape, BlockOf, Consume, X.Steady;
    SetEmptyFinds(s, t);
    SetEmptyActs(s, t);
    SetEmptyOk(s, t);
    InvIndex(s);
    Steadiness(s.ix);
    OthersRest(s, s', t);
  }

  lemma SetEmptyKeeps(s: State, t: Thread)
    requires Inv(s) && CanConsume(s, t) && s.con[t].SetEmpty?
    ensures Inv(Consume(s, t))
  {
    hide T.Inv, X.Inv, StoredOk, BlocksOk, BlockOk, RolesOk, CoverOk, HistoryOk, ConsumersOk, ConsumerOk, ProducerOk,
      X.Shape, BlockOf, T.Range;
    var SetEmpty(g, p, i, id, start) := s.con[t];
    var s' := Consume(s, t);
    SetEmptyFinds(s, t);
    BlocksAfterSetEmpty(s.ix.live, s.count, s.done, s.role, BlockOf(start), start, i, t);
    ConsumersAfterSetEmpty(s, t, s');
    HistoryAfterSetEmpty(s.q.sh.tail, s.q.sh.head, s.history, s.delivered, s.done, start, i);
    StoredAfterSetEmpty(s.ix.live, s.mem, s.filled, s.delivered, s.done, T.Range(start, i));
    if s'.con[t].StoreNull? {
      RolesAfterRetire(s.role, s.ix.live, s.prod, s.chain, s.con, BlockOf(start), t, s'.con[t]);
    } else {
      RolesAfterMove(s.role, s.ix.live, s.prod, s.chain, s.con, t, s'.con[t]);
    }
    SetEmptyOk(s, t);
    CoverAfterMove(s.q.sh.head, s.con, s'.con, s.q.pc, s.q.pc, s.done, s'.done, t);
    ProducerAfterCount(s, s', BlockOf(start));
  }

  // ---------------------------------------------------------------- a consumer retires a block

  /** A block whose counter reached BLOCK_SIZE has no index left to complete. */
  lemma FullBlock(done: set<nat>, n: nat, k: nat)
    requires |DoneIn(done, n)| == BLOCK_SIZE && BlockOf(k) == n
    ensures k in done
  {
    hide BlockOf, Base, DoneIn;
    var all := T.Range(Base(n), Base(n) + BLOCK_SIZE);
    InBlock(k);
    if k !in done {
      forall j | j in DoneIn(done, n) ensures j in all - {k} {
        DoneInIs(done, n, j);
        InBlock(j);
      }
      T.SubsetSize(DoneIn(done, n), all - {k});
    }
  }

  lemma DoneInIs(done: set<nat>, n: nat, j: nat)
    ensures j in DoneIn(done, n) <==> j in done && BlockOf(j) == n
  {
  }

  /** Slot p of header g holds the entry of block n, which is block id of memory. */
  ghost predicate EntryAt(ix: X.Index, g: nat, p: nat, n: nat, id: BlockId)
    requires X.Shape(ix)
  {
    && g < |ix.headers| && X.HeaderShape(ix, ix.headers[g]) && p < ix.headers[g].cap
    && n in ix.live && ix.live[n] == id && ix.headers[g].slots[p] == X.Ent(ix.Cur(), n)
  }

  /** What a consumer about to take a block out of the index knows. */
  lemma StoreNullFinds(s: State, t: Thread, n: nat)
    requires Inv(s) && CanConsume(s, t) && s.con[t].StoreNull? && n == BlockOf(s.con[t].i - 1)
    ensures EntryAt(s.ix, s.con[t].g, s.con[t].p, n, s.con[t].id)
    ensures s.con[t].id in s.role && s.role[s.con[t].id] == Retiring(n, t)
    ensures forall k: nat :: BlockOf(k) == n ==> k in s.done
  {
    hide Inv, BlockOf, X.Slot, HeaderFits, DoneIn;
    InvParts(s, t);
    RestBlock(s, t);
    var StoreNull(g, p, i, id) := s.con[t];
    InvBlocks(s, n);
    HeaderIsShaped(s.ix, g);
    forall k: nat | BlockOf(k) == n ensures k in s.done {
      FullBlock(s.done, n, k);
    }
  }

  /** A retired block lies entirely below the tail, and is not the block the producer is still filling. */
  lemma RetiredIsPublished(tail: nat, done: set<nat>, n: nat)
    requires forall k :: k in done ==> k < tail
    requires forall k :: BlockOf(k) == n ==> k in done
    ensures n < BlocksFor(tail) && (tail < Base(BlocksFor(tail)) ==> n + 1 < BlocksFor(tail))
  {
    hide BlockOf, Base, BlocksFor;
    var last := Base(n) + BLOCK_SIZE - 1;
    BlockOfIs(last, n);
    BaseNext(n);
    BlocksForIs(tail);
    if BlocksFor(tail) <= n {
      if BlocksFor(tail) < n {
        BaseOrder(BlocksFor(tail), n);
      }
    } else if BlocksFor(tail) == n + 1 {
    }
  }

  lemma StoredAfterClear(live: map<nat, BlockId>, mem: map<(BlockId, nat), Item>, filled: seq<Item>,
                         delivered: map<nat, Item>, done: set<nat>, n: nat)
    requires StoredOk(live, mem, filled, delivered, done)
    requires forall k :: k in done ==> k in delivered
    requires forall k: nat :: BlockOf(k) == n ==> k in done
    ensures StoredOk(live - {n}, mem, filled, delivered, done)
  {
    hide BlockOf, Offset;
    forall i | 0 <= i < |filled| && i !in delivered ensures Stored(live - {n}, mem, filled, i) {
      assert Stored(live, mem, filled, i);
    }
  }

  lemma BlocksAfterClear(live: map<nat, BlockId>, count: map<BlockId, nat>, done: set<nat>, role: map<BlockId, Role>,
                         n: nat, r: Role)
    requires BlocksOk(live, count, done, role) && n in live
    ensures BlocksOk(live - {n}, count, done, role[live[n] := r])
  {
    forall m | m in live && m != n ensures BlockOk(m, live[m], count, done, role[live[n] := r]) {
      assert BlockOk(m, live[m], count, done, role);
      if live[m] == live[n] {
        LiveApart(live, count, done, role, m, n);
      }
    }
  }

  lemma RolesAfterClear(role: map<BlockId, Role>, live: map<nat, BlockId>, prod: Producer, chain: seq<BlockId>,
                        con: map<Thread, Consumer>, n: nat, t: Thread, c: Consumer)
    requires RolesOk(role, live, prod, chain, con) && n in live && t in con && c.AddFree? && c.id == live[n]
    requires live[n] in role && role[live[n]] == Retiring(n, t)
    ensures RolesOk(role[live[n] := Freed(t)], live - {n}, prod, chain, con[t := c])
  {
    var role', live', con' := role[live[n] := Freed(t)], live - {n}, con[t := c];
    assert RoleOk(live[n], role[live[n]], live, prod, chain, con);
    forall id | id in role' ensures RoleOk(id, role'[id], live', prod, chain, con') {
      assert RoleOk(id, role[id], live, prod, chain, con);
    }
  }

  /** What the producer relies on survives the retirement of a block that is full and completed. */
  lemma ProducerAfterClear(s: State, s': State, e: X.EntryId, n: nat)
    requires X.Shape(s.ix) && ProducerOk(s) && e < |s.ix.entries| && n in s.ix.live
    requires n < BlocksFor(s.q.sh.tail)
    requires s.q.sh.tail < Base(BlocksFor(s.q.sh.tail)) ==> n + 1 < BlocksFor(s.q.sh.tail)
    requires s' == s.(ix := X.ClearValue(s.ix, e, n), role := s'.role, con := s'.con)
    requires forall id :: id in s.role && (s.role[id].Taken? || s.role[id].Undone?) ==> id in s'.role && s'.role[id] == s.role[id]
    ensures X.Shape(s'.ix) && ProducerOk(s')
  {
    hide BlocksFor, Base, FilledOk, RoomOk, X.HeaderShape, X.Divides;
    ShapeAfterValue(s.ix, s'.ix);
    ProducingAfterClear(s, s', e, n);
  }

  lemma ShapeAfterValue(ix: X.Index, ix': X.Index)
    requires X.Shape(ix) && ix'.headers == ix.headers && |ix'.entries| == |ix.entries|
    ensures X.Shape(ix')
  {
    forall g | 0 <= g < |ix.headers| ensures X.HeaderShape(ix', ix'.headers[g]) {
      assert X.HeaderShape(ix, ix.headers[g]);
    }
  }

  lemma ProducingAfterClear(s: State, s': State, e: X.EntryId, n: nat)
    requires X.Shape(s.ix) && X.Shape(s'.ix) && e < |s.ix.entries| && n in s.ix.live && n < BlocksFor(s.q.sh.tail)
    requires ProducingOk(s.prod, s.q.sh.tail, |s.todo|, s.ix, s.chain, s.count, s.role)
    requires s'.ix == X.ClearValue(s.ix, e, n)
    requires forall id :: id in s.role && (s.role[id].Taken? || s.role[id].Undone?) ==> id in s'.role && s'.role[id] == s.role[id]
    ensures ProducingOk(s.prod, s.q.sh.tail, |s.todo|, s'.ix, s.chain, s.count, s'.role)
  {
    hide BlocksFor, X.HeaderShape, X.Divides, X.Shape, ChainUndone, ChainLive;
    var f := BlocksFor(s.q.sh.tail);
    forall a: nat | ChainLive(s.ix.live, s.chain, f, a) ensures ChainLive(s'.ix.live, s.chain, f, a) {
      ChainKept(s.ix.live, s.chain, f, a, n);
    }
    forall a: nat, b: nat | ChainUndone(s.role, s.chain, a, b) ensures ChainUndone(s'.role, s.chain, a, b) {
      UndoneKept(s.role, s'.role, s.chain, a, b);
    }
    forall m: nat | LiveBelow(s.ix.live, m) ensures LiveBelow(s'.ix.live, m) {
    }
    hide ChainLive, LiveBelow;
  }

  lemma ChainKept(live: map<nat, BlockId>, chain: seq<BlockId>, f: nat, a: nat, n: nat)
    requires ChainLive(live, chain, f, a) && n < f
    ensures ChainLive(live - {n}, chain, f, a)
  {
    forall j | a <= j < |chain| ensures InChain(live - {n}, chain, f, j) {
      assert InChain(live, chain, f, j);
    }
  }

  lemma UndoneKept(role: map<BlockId, Role>, role': map<BlockId, Role>, chain: seq<BlockId>, a: nat, b: nat)
    requires ChainUndone(role, chain, a, b)
    requires forall id :: id in role && (role[id].Taken? || role[id].Undone?) ==> id in role' && role'[id] == role[id]
    ensures ChainUndone(role', chain, a, b)
  {
  }

  lemma StoreNullKeeps(s: State, t: Thread)
    requires Inv(s) && CanConsume(s, t) && s.con[t].StoreNull?
    ensures Inv(Consume(s, t))
  {
    hide T.Inv, X.Inv, StoredOk, BlocksOk, BlockOk, RolesOk, CoverOk, ConsumerOk, ConsumersOk, ProducerOk,
      X.Shape, BlockOf, T.Range, BlocksFor, Base;
    var StoreNull(g, p, i, id) := s.con[t];
    var n := BlockOf(i - 1);
    StoreNullFinds(s, t, n);
    var e := s.ix.headers[g].slots[p];
    var s' := Consume(s, t);
    X.ClearValueKeeps(s.ix, e, n);
    X.ValueIsSteady(s.ix, s'.ix);
    StoreNullOk(s, t);
    InvIndices(s);
    OthersRest(s, s', t);
    StoredAfterClear(s.ix.live, s.mem, s.filled, s.delivered, s.done, n);
    BlocksAfterClear(s.ix.live, s.count, s.done, s.role, n, Freed(t));
    RolesAfterClear(s.role, s.ix.live, s.prod, s.chain, s.con, n, t, s'.con[t]);
    CoverAfterMove(s.q.sh.head, s.con, s'.con, s.q.pc, s.q.pc, s.done, s.done, t);
    RetiredIsPublished(s.q.sh.tail, s.done, n);
    ProducerAfterClear(s, s', e, n);
  }

  lemma StoreNullOk(s: State, t: Thread)
    requires Inv(s) && CanConsume(s, t) && s.con[t].StoreNull?
    ensures
      var s' := Consume(s, t);
      && X.Shape(s'.ix) && s'.con == s.con[t := s'.con[t]] && t in s'.q.pc
      && ConsumerOk(s'.con[t], t, s'.q.pc[t], s'.ix, s'.delivered, s'.done, s'.role)
      && Pending(s'.con[t], s.q.pc[t].first) == Pending(s.con[t], s.q.pc[t].first)
  {
    hide Inv, BlockOf, X.Shape, X.HeaderShape, X.Slot, X.Steady, PlaceOk, X.ClearValue, EntryAt;
    InvParts(s, t);
    var s', c := Consume(s, t), s.con[t];
    InvIndex(s);
    NullIsSteady(s, t);
    SteadyShape(s.ix, s'.ix);
    forall k: nat | c.i <= k < End(s, t) ensures BlockOf(k) in s.ix.live {
      PendingIsLive(s, t, k);
    }
    PlaceAfterStoreNull(c, t, s.q.pc[t].first, End(s, t), s.ix, s'.ix, s.role, s'.role);
  }

  lemma NullIsSteady(s: State, t: Thread)
    requires Inv(s) && CanConsume(s, t) && s.con[t].StoreNull?
    ensures X.Steady(s.ix, Consume(s, t).ix)
  {
    hide Inv, BlockOf, X.Shape, X.Slot, X.Steady;
    StoreNullFinds(s, t, BlockOf(s.con[t].i - 1));
    InvIndex(s);
    X.ValueIsSteady(s.ix, Consume(s, t).ix);
  }

  lemma PlaceAfterStoreNull(c: Consumer, t: Thread, first: nat, end: nat, ix: X.Index, ix': X.Index,
                            role: map<BlockId, Role>, role': map<BlockId, Role>)
    requires X.Shape(ix) && X.Shape(ix') && X.Steady(ix, ix') && c.StoreNull? && PlaceOk(c, t, first, end, ix, role)
    requires forall k: nat :: c.i <= k < end ==> BlockOf(k) in ix.live
    requires c.id in role' && role'[c.id] == Freed(t)
    ensures PlaceOk(AddFree(c.g, c.p, c.i, c.id), t, first, end, ix', role')
  {
    hide X.Steady, X.Has, X.Slot, X.Shape, BlockOf, HeaderFits;
    HeaderInRange(c, t, first, end, ix, role);
    HeaderStillFits(ix, ix', c.g, c.i, end);
    SteadyHeader(ix, ix', c.g);
  }

  lemma AddFreeKeeps(s: State, t: Thread)
    requires Inv(s) && CanConsume(s, t) && s.con[t].AddFree?
    ensures Inv(Consume(s, t))
  {
    hide T.Inv, X.Inv, StoredOk, BlocksOk, BlockOk, RolesOk, CoverOk, HistoryOk, ConsumerOk, ConsumersOk, ProducerOk,
      X.Shape, BlockOf;
    var s' := Consume(s, t);
    AddFreeOk(s, t);
    Steadiness(s.ix);
    OthersRest(s, s', t);
    BlocksAfterFree(s.ix.live, s.count, s.done, s.role, s.con[t].id);
    RolesAfterFree(s.role, s.ix.live, s.prod, s.chain, s.con, t, s.con[t].id, s'.con[t]);
    CoverAfterMove(s.q.sh.head, s.con, s'.con, s.q.pc, s.q.pc, s.done, s.done, t);
    ProducerAfterFree(s, s', s.con[t].id);
  }

  lemma AddFreeOk(s: State, t: Thread)
    requires Inv(s) && CanConsume(s, t) && s.con[t].AddFree?
    ensures
      var s' := Consume(s, t);
      && X.Shape(s'.ix) && s'.con == s.con[t := s'.con[t]] && t in s'.q.pc
      && ConsumerOk(s'.con[t], t, s'.q.pc[t], s'.ix, s'.delivered, s'.done, s'.role)
      && Pending(s'.con[t], s.q.pc[t].first) == Pending(s.con[t], s.q.pc[t].first)
      && s.con[t].id in s.role && s.role[s.con[t].id] == Freed(t)
  {
    hide Inv, BlockOf, X.Shape, X.Slot, HeaderFits;
    InvParts(s, t);
  }

  lemma BlocksAfterFree(live: map<nat, BlockId>, count: map<BlockId, nat>, done: set<nat>, role: map<BlockId, Role>, id: BlockId)
    requires BlocksOk(live, count, done, role) && id in role && !role[id].Live? && !role[id].Retiring?
    ensures BlocksOk(live, count, done, role - {id})
  {
    forall m | m in live ensures BlockOk(m, live[m], count, done, role - {id}) {
      assert BlockOk(m, live[m], count, done, role);
    }
  }

  lemma RolesAfterFree(role: map<BlockId, Role>, live: map<nat, BlockId>, prod: Producer, chain: seq<BlockId>,
                       con: map<Thread, Consumer>, t: Thread, id: BlockId, c: Consumer)
    requires RolesOk(role, live, prod, chain, con) && t in con && con[t].AddFree? && con[t].id == id
    ensures RolesOk(role - {id}, live, prod, chain, con[t := c])
  {
    forall b | b in role && b != id ensures RoleOk(b, role[b], live, prod, chain, con[t := c]) {
      assert RoleOk(b, role[b], live, prod, chain, con);
    }
  }

  lemma ProducerAfterFree(s: State, s': State, id: BlockId)
    requires X.Shape(s.ix) && ProducerOk(s) && id in s.role && s.role[id].Freed?
    requires s' == s.(role := s.role - {id}, con := s'.con)
    ensures ProducerOk(s')
  {
    hide BlocksFor, Inserting, ChainLive, NextSlotFree, Allocated, TailOk, FilledOk, RoomOk;
  }

  lemma NextBlockMoves(s: State, t: Thread)
    requires Inv(s) && CanConsume(s, t) && s.con[t].NextBlock? && s.con[t].i < End(s, t)
    ensures Inv(Consume(s, t))
  {
    hide Inv, BlockOf, X.Shape, X.Slot, HeaderFits;
    InvParts(s, t);
    var NextBlock(g, p, i) := s.con[t];
    HeaderIsShaped(s.ix, g);
    X.NextSlot(s.ix.headers[g], BlockOf(i - 1));
    MoveKeeps(s, t, LoadValue(g, (p + 1) % s.ix.headers[g].cap, i));
  }

  lemma ConsumersAfterTicket(s: State, s': State, t: Thread)
    requires Inv(s) && t in s.con && t in s.q.pc
    requires t in s'.q.pc && t in s'.con && s'.q.pc == s.q.pc[t := s'.q.pc[t]] && s'.con == s.con[t := s'.con[t]]
    requires s'.ix == s.ix && s'.delivered == s.delivered && s'.done == s.done && s'.role == s.role
    requires X.Shape(s.ix) && ConsumerOk(s'.con[t], t, s'.q.pc[t], s.ix, s.delivered, s.done, s.role)
    ensures ConsumersOk(s'.con, s'.q.pc, s.ix, s.delivered, s.done, s.role)
  {
    hide T.Inv, X.Inv, StoredOk, BlocksOk, RolesOk, CoverOk, HistoryOk, ProducerOk, ConsumerOk, X.Shape;
  }

  lemma ReturnKeeps(s: State, t: Thread)
    requires Inv(s) && T.Timely(s.q) && CanConsume(s, t) && s.con[t].NextBlock? && s.con[t].i >= End(s, t)
    ensures Inv(Consume(s, t))
  {
    hide T.Inv, X.Inv, StoredOk, BlocksOk, RolesOk, CoverOk, HistoryOk, ConsumerOk, ConsumersOk, ProducingOk, TailOk,
      FilledOk, RoomOk, X.Shape, BlocksFor, T.Timely;
    var s' := Consume(s, t);
    T.StepKeepsInv(s.q, t);
    assert ConsumerOk(NoClaim, t, T.Idle, s.ix, s.delivered, s.done, s.role) by {
      NoClaimOk(s.ix, t, s.delivered, s.done, s.role);
    }
    ConsumersAfterTicket(s, s', t);
    RolesAfterMove(s.role, s.ix.live, s.prod, s.chain, s.con, t, NoClaim);
    CoverAfterMove(s.q.sh.head, s.con, s'.con, s.q.pc, s'.q.pc, s.done, s.done, t);
  }

  lemma NoClaimOk(ix: X.Index, t: Thread, delivered: map<nat, Item>, done: set<nat>, role: map<BlockId, Role>)
    requires X.Shape(ix)
    ensures ConsumerOk(NoClaim, t, T.Idle, ix, delivered, done, role)
  {
  }

  lemma ConsumeKeeps(s: State, t: Thread)
    requires Inv(s) && T.Timely(s.q) && CanConsume(s, t)
    ensures Inv(Consume(s, t))
  {
    hide Inv, T.Timely, X.Shape, Consume;
    match s.con[t]
    case LoadHeader => LoadHeaderKeeps(s, t);
    case LoadTail(_) => LoadTailKeeps(s, t);
    case LoadKey(_, _) => LoadKeyKeeps(s, t);
    case LoadValue(_, _, _) => LoadValueKeeps(s, t);
    case Read(_, _, _, _, _) => ReadKeeps(s, t);
    case SetEmpty(_, _, _, _, _) => SetEmptyKeeps(s, t);
    case StoreNull(_, _, _, _) => StoreNullKeeps(s, t);
    case AddFree(_, _, _, _) => AddFreeKeeps(s, t);
    case NextBlock(_, _, i) => if i < End(s, t) { NextBlockMoves(s, t); } else { ReturnKeeps(s, t); }
  }

  // ---------------------------------------------------------------- the ticket protocol moves

  /** A ticket step changes neither tail nor, but for the claim it makes, head. */
  lemma TicketActs(q: T.State, t: Thread)
    requires t in q.pc && !q.pc[t].Claimed?
    ensures
      var q' := T.Step(q, t);
      && q'.pc == q.pc[t := q'.pc[t]] && t in q'.pc && q'.sh.tail == q.sh.tail
      && (q.pc[t].AddHead? ==> q'.pc[t] == T.Claimed(q.sh.head, q.pc[t].got) && q'.sh.head == q.sh.head + q.pc[t].got)
      && (!q.pc[t].AddHead? ==> !q'.pc[t].Claimed? && q'.sh.head == q.sh.head)
  {
    hide T.Granted, T.Room, T.Range;
  }

  lemma TicketConsumer(s: State, t: Thread)
    requires Inv(s) && t in s.q.pc && !s.q.pc[t].Claimed?
    ensures
      var s' := Ticket(s, t);
      && t in s.con && t in s'.con && t in s'.q.pc && X.Shape(s.ix) && s.con[t] == NoClaim
      && s'.con == s.con[t := s'.con[t]] && ConsumerOk(s'.con[t], t, s'.q.pc[t], s.ix, s.delivered, s.done, s.role)
  {
    hide Inv, X.Shape, T.Step;
    InvKeys(s);
    InvParts(s, t);
    InvIndices(s);
    TicketActs(s.q, t);
    assert s.con[t := s.con[t]] == s.con;
  }

  lemma ProducerAfterTicket(s: State, s': State)
    requires X.Shape(s.ix) && ProducerOk(s) && s' == s.(q := s'.q, con := s'.con)
    requires s'.q.sh.tail == s.q.sh.tail && s'.q.sh.head >= s.q.sh.head
    ensures ProducerOk(s')
  {
    hide ProducingOk, TailOk, FilledOk, BlocksFor, Base;
  }

  lemma HistoryAfterClaim(tail: nat, head: nat, head': nat, history: seq<Item>, delivered: map<nat, Item>, done: set<nat>)
    requires HistoryOk(tail, head, history, delivered, done) && head <= head'
    ensures HistoryOk(tail, head', history, delivered, done)
  {
  }

  lemma CoverAfterTicket(s: State, t: Thread)
    requires Inv(s) && t in s.q.pc && !s.q.pc[t].Claimed?
    ensures var s' := Ticket(s, t); CoverOk(s'.q.sh.head, s'.con, s'.q.pc, s'.done)
  {
    hide T.Inv, X.Inv, StoredOk, BlocksOk, RolesOk, HistoryOk, ProducerOk, X.Shape, T.Step, ConsumerOk;
    var s' := Ticket(s, t);
    TicketActs(s.q, t);
    forall i: nat | 0 <= i < s'.q.sh.head ensures Covered(i, s'.con, s'.q.pc, s.done) {
      if i < s.q.sh.head {
        assert Covered(i, s.con, s.q.pc, s.done);
        if i !in s.done {
          var u :| Holds(u, i, s.con, s.q.pc);
          assert Holds(u, i, s'.con, s'.q.pc);
        }
      } else {
        assert Holds(t, i, s'.con, s'.q.pc);
      }
    }
  }

  lemma TicketKeeps(s: State, t: Thread)
    requires Inv(s) && T.Timely(s.q) && t in s.q.pc && !s.q.pc[t].Claimed?
    ensures Inv(Ticket(s, t))
  {
    hide T.Inv, X.Inv, StoredOk, BlocksOk, RolesOk, CoverOk, HistoryOk, ConsumerOk, ConsumersOk, ProducerOk,
      X.Shape, T.Timely, T.Step;
    var s' := Ticket(s, t);
    T.StepKeepsInv(s.q, t);
    TicketActs(s.q, t);
    TicketConsumer(s, t);
    ConsumersAfterTicket(s, s', t);
    RolesAfterMove(s.role, s.ix.live, s.prod, s.chain, s.con, t, s'.con[t]);
    CoverAfterTicket(s, t);
    HistoryAfterClaim(s.q.sh.tail, s.q.sh.head, s'.q.sh.head, s.history, s.delivered, s.done);
    ProducerAfterTicket(s, s');
  }

  lemma DequeueCallKeeps(s: State, t: Thread, max: nat)
    requires Inv(s) && t in s.q.pc && s.q.pc[t] == T.Idle
    ensures Inv(s.(q := T.Call(s.q, t, max)))
  {
    hide T.Inv, X.Inv, StoredOk, BlocksOk, RolesOk, CoverOk, HistoryOk, ConsumersOk, ProducerOk, X.Shape, PlaceOk;
    var s' := s.(q := T.Call(s.q, t, max));
    T.CallKeepsInv(s.q, t, max);
    InvKeys(s);
    InvParts(s, t);
    assert s'.con == s.con[t := s.con[t]];
    ConsumersAfterTicket(s, s', t);
    CoverAfterMove(s.q.sh.head, s.con, s.con, s.q.pc, s'.q.pc, s.done, s.done, t);
    ProducerAfterTicket(s, s');
  }

  // ---------------------------------------------------------------- the rest of the program moves

  lemma ElsewhereKeeps(s: State, s': State)
    requires Inv(s) && Elsewhere(s, s')
    ensures Inv(s')
  {
    hide T.Inv, X.Inv, RolesOk, CoverOk, HistoryOk, ConsumersOk, X.Shape, StoredOk, BlocksOk, ProducerOk;
    InvShape(s);
    StoredElsewhere(s, s');
    BlocksElsewhere(s, s');
    ProducerElsewhere(s, s');
  }

  lemma StoredElsewhere(s: State, s': State)
    requires Elsewhere(s, s') && BlocksOk(s.ix.live, s.count, s.done, s.role)
    requires StoredOk(s.ix.live, s.mem, s.filled, s.delivered, s.done)
    ensures StoredOk(s.ix.live, s'.mem, s.filled, s.delivered, s.done)
  {
    hide BlockOf, Offset;
    forall i | 0 <= i < |s.filled| && i !in s.delivered ensures Stored(s.ix.live, s'.mem, s.filled, i) {
      assert Stored(s.ix.live, s.mem, s.filled, i);
      assert BlockOk(BlockOf(i), s.ix.live[BlockOf(i)], s.count, s.done, s.role);
    }
  }

  lemma BlocksElsewhere(s: State, s': State)
    requires Elsewhere(s, s') && BlocksOk(s.ix.live, s.count, s.done, s.role)
    ensures BlocksOk(s.ix.live, s'.count, s.done, s.role)
  {
    forall n | n in s.ix.live ensures BlockOk(n, s.ix.live[n], s'.count, s.done, s.role) {
      assert BlockOk(n, s.ix.live[n], s.count, s.done, s.role);
    }
  }

  lemma ProducerElsewhere(s: State, s': State)
    requires Elsewhere(s, s') && X.Shape(s.ix) && ProducerOk(s)
    ensures ProducerOk(s')
  {
    hide BlocksFor, Inserting, ChainLive, NextSlotFree, Allocated, TailOk, FilledOk, RoomOk, Undoing, ChainUndone;
  }
}
