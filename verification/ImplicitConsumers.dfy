/**
  Every access of a consumer keeps the invariant of the queue, and so do the ticket protocol and the rest of the program.
*/
module ImplicitConsumers {
  import opened Wrappers
  import opened Blocks
  import T = Tickets
  import X = BlockIndex
  import opened ImplicitQueue

  // ---------------------------------------------------------------- consumers at rest

  lemma HeaderStillFits(ix: X.Index, ix': X.Index, g: nat, a: nat, end: nat)
    requires X.Shape(ix) && X.Shape(ix') && X.Steady(ix, ix') && HeaderFits(ix, g, a, end)
    requires forall k: nat :: a <= k < end ==> BlockOf(k) in ix.live
    ensures HeaderFits(ix', g, a, end)
  {
    hide X.Steady, X.Has, BlockOf;
    SteadyHeader(ix, ix', g);
    forall k: nat | a <= k < end ensures g < |ix'.headers| && X.Has(ix', ix'.headers[g], BlockOf(k)) {
      X.HasKept(ix, ix', g, BlockOf(k));
    }
  }

  lemma SteadyHeader(ix: X.Index, ix': X.Index, g: nat)
    requires X.Steady(ix, ix') && g < |ix.headers|
    ensures g < |ix'.headers| && X.SameButTail(ix.headers[g], ix'.headers[g])
    ensures forall n :: ix.headers[g].cap > 0 ==> X.Slot(ix'.headers[g], n) == X.Slot(ix.headers[g], n)
    ensures forall tail :: KeyIn(ix, g, tail) ==> KeyIn(ix', g, tail)
  {
  }

  lemma PlaceKept(c: Consumer, t: Thread, first: nat, end: nat, ix: X.Index, ix': X.Index,
                  role: map<BlockId, Role>, role': map<BlockId, Role>)
    requires X.Shape(ix) && X.Shape(ix') && X.Steady(ix, ix') && PlaceOk(c, t, first, end, ix, role)
    requires forall k: nat :: Pending(c, first) <= k < end ==> BlockOf(k) in ix.live
    requires c.Read? || c.SetEmpty? ==>
               BlockOf(c.start) in ix'.live && BlockOf(c.start) in ix.live
               && ix'.live[BlockOf(c.start)] == ix.live[BlockOf(c.start)]
    requires c.StoreNull? || c.AddFree? ==> c.id in role && c.id in role' && role'[c.id] == role[c.id]
    requires c.StoreNull? && c.i > 0 ==> BlockOf(c.i - 1) in ix.live
    ensures PlaceOk(c, t, first, end, ix', role')
  {
    hide X.Steady, X.Has, X.Slot, X.Shape, BlockOf, HeaderFits, KeyIn;
    if c.LoadTail? || c.LoadKey? || c.LoadValue? || c.Read? || c.SetEmpty? || c.StoreNull? || c.AddFree? || c.NextBlock? {
      HeaderInRange(c, t, first, end, ix, role);
      SteadyHeader(ix, ix', c.g);
      HeaderStillFits(ix, ix', c.g, Pending(c, first), end);
      if c.StoreNull? {
        X.HasKept(ix, ix', c.g, BlockOf(c.i - 1));
      }
    }
  }

  lemma HeaderInRange(c: Consumer, t: Thread, first: nat, end: nat, ix: X.Index, role: map<BlockId, Role>)
    requires X.Shape(ix) && PlaceOk(c, t, first, end, ix, role)
    requires c.LoadTail? || c.LoadKey? || c.LoadValue? || c.Read? || c.SetEmpty? || c.StoreNull? || c.AddFree? || c.NextBlock?
    ensures c.g < |ix.headers|
  {
  }

  lemma ClaimKept(c: Consumer, first: nat, end: nat, delivered: map<nat, Item>, done: set<nat>,
                  delivered': map<nat, Item>, done': set<nat>)
    requires ClaimOk(c, first, end, delivered, done)
    requires forall k :: Pending(c, first) <= k < end ==> (k in delivered' <==> k in delivered) && (k in done' ==> k in done)
    requires forall k :: k in delivered ==> k in delivered'
    ensures ClaimOk(c, first, end, delivered', done')
  {
  }

  /** Every index a consumer has pending lies in a block the index has. */
  lemma PendingIsLive(s: State, t: Thread, k: nat)
    requires Inv(s) && t in s.con && s.q.pc[t].Claimed?
    requires Pending(s.con[t], s.q.pc[t].first) <= k < End(s, t)
    ensures k < |s.filled| && BlockOf(k) in s.ix.live && k !in s.done
  {
    hide Inv, PlaceOk, BlockOf, X.Shape;
    InvParts(s, t);
    InvIndices(s);
    ClaimBelowHead(s, t);
  }

  lemma ClaimBelowHead(s: State, t: Thread)
    requires Inv(s) && t in s.con && t in s.q.pc && s.q.pc[t].Claimed?
    ensures s.q.pc[t].first < End(s, t) <= s.q.sh.head
  {
    hide X.Inv, HistoryOk, StoredOk, BlocksOk, RolesOk, ProducerOk, ConsumersOk, CoverOk, T.SharedOk;
    assert T.ThreadOk(s.q.sh, s.q.pc[t]);
  }

  lemma InvIndices(s: State)
    requires Inv(s)
    ensures s.q.sh.head <= s.q.sh.tail == |s.history| <= |s.filled| && s.history <= s.filled
    ensures StoredOk(s.ix.live, s.mem, s.filled, s.delivered, s.done)
    ensures HistoryOk(s.q.sh.tail, s.q.sh.head, s.history, s.delivered, s.done)
  {
    hide T.Inv, X.Inv, StoredOk, BlocksOk, RolesOk, ConsumersOk, CoverOk, ProducingOk, TailOk, RoomOk, BlocksFor;
    HeadWithinTail(s.q);
  }

  lemma InvRole(s: State, id: BlockId)
    requires Inv(s) && id in s.role
    ensures RoleOk(id, s.role[id], s.ix.live, s.prod, s.chain, s.con)
  {
    hide T.Inv, X.Inv, StoredOk, BlocksOk, HistoryOk, ConsumersOk, CoverOk, ProducerOk, RoleOk;
  }

  lemma HeadWithinTail(q: T.State)
    requires T.Inv(q)
    ensures q.sh.head <= q.sh.tail
  {
    T.ApprovedFitTail(q.sh);
    T.SubsetSize(q.sh.claimed, q.sh.approved);
  }

  /** A consumer at rest keeps its invariant if its indices, its header and its block are left alone. */
  lemma RestKept(s: State, s': State, u: Thread)
    requires Inv(s) && u in s.con && X.Steady(s.ix, s'.ix)
    requires u in s'.con && s'.con[u] == s.con[u] && u in s'.q.pc && (s'.q.pc[u] == s.q.pc[u] || !s.q.pc[u].Claimed?)
    requires s'.q.pc[u].Claimed? ==> s.q.pc[u].Claimed?
    requires forall k :: k in s.delivered ==> k in s'.delivered
    requires s.q.pc[u].Claimed? ==> forall k :: Pending(s.con[u], s.q.pc[u].first) <= k < End(s, u) ==>
               && (k in s'.delivered <==> k in s.delivered) && (k in s'.done ==> k in s.done)
               && (BlockOf(k) in s.ix.live ==> BlockOf(k) in s'.ix.live && s'.ix.live[BlockOf(k)] == s.ix.live[BlockOf(k)])
    requires s.con[u].StoreNull? || s.con[u].AddFree? ==>
               s.con[u].id in s.role ==> s.con[u].id in s'.role && s'.role[s.con[u].id] == s.role[s.con[u].id]
    ensures X.Shape(s'.ix) && ConsumerOk(s'.con[u], u, s'.q.pc[u], s'.ix, s'.delivered, s'.done, s'.role)
  {
    hide T.Inv, X.Inv, StoredOk, BlocksOk, ProducerOk, CoverOk, HistoryOk, BlockOf, X.Shape, PlaceOk, X.Steady, Inv;
    SteadyShape(s.ix, s'.ix);
    InvParts(s, u);
    if s.q.pc[u].Claimed? {
      var c, first, end := s.con[u], s.q.pc[u].first, End(s, u);
      forall k: nat | Pending(c, first) <= k < end ensures BlockOf(k) in s.ix.live {
        PendingIsLive(s, u, k);
      }
      RestBlock(s, u);
      ClaimKept(c, first, end, s.delivered, s.done, s'.delivered, s'.done);
      PlaceKept(c, u, first, end, s.ix, s'.ix, s.role, s'.role);
    }
  }

  lemma SteadyShape(ix: X.Index, ix': X.Index)
    requires X.Steady(ix, ix')
    ensures X.Shape(ix) && X.Shape(ix')
  {
  }

  lemma InvParts(s: State, u: Thread)
    requires Inv(s) && u in s.con
    ensures X.Shape(s.ix) && u in s.q.pc
    ensures ConsumerOk(s.con[u], u, s.q.pc[u], s.ix, s.delivered, s.done, s.role)
  {
  }

  /** The block a consumer is working in is in the index. */
  lemma RestBlock(s: State, u: Thread)
    requires Inv(s) && u in s.con && s.q.pc[u].Claimed?
    ensures s.con[u].StoreNull? || s.con[u].AddFree? ==> s.con[u].id in s.role
    ensures s.con[u].StoreNull? ==>
              && s.con[u].i > 0 && BlockOf(s.con[u].i - 1) in s.ix.live
              && s.ix.live[BlockOf(s.con[u].i - 1)] == s.con[u].id
    ensures s.con[u].Read? || s.con[u].SetEmpty? ==>
              && Pending(s.con[u], s.q.pc[u].first) == s.con[u].start < End(s, u) && BlockOf(s.con[u].start) in s.ix.live
              && s.ix.live[BlockOf(s.con[u].start)] == s.con[u].id
  {
    hide Inv, BlockOf, HeaderFits, SlotOf, X.Shape;
    InvParts(s, u);
    if s.con[u].StoreNull? {
      InvRole(s, s.con[u].id);
    }
  }

  // ---------------------------------------------------------------- a consumer moves

  predicate HasBlock(c: Consumer) {
    c.StoreNull? || c.AddFree?
  }

  /** Roles that name no moving consumer are unaffected by its move. */
  lemma RolesAfterMove(role: map<BlockId, Role>, live: map<nat, BlockId>, prod: Producer, chain: seq<BlockId>,
                       con: map<Thread, Consumer>, t: Thread, c: Consumer)
    requires RolesOk(role, live, prod, chain, con) && t in con && !HasBlock(con[t])
    ensures RolesOk(role, live, prod, chain, con[t := c])
  {
    forall id | id in role ensures RoleOk(id, role[id], live, prod, chain, con[t := c]) {
      assert RoleOk(id, role[id], live, prod, chain, con);
    }
  }

  /** Nothing drops out of sight when one consumer moves, as long as what it drops is completed. */
  lemma CoverAfterMove(head: nat, con: map<Thread, Consumer>, con': map<Thread, Consumer>, pcs: map<Thread, T.Pc>,
                       pcs': map<Thread, T.Pc>, done: set<nat>, done': set<nat>, t: Thread)
    requires CoverOk(head, con, pcs, done) && done <= done'
    requires forall u :: u in con && u in pcs && u != t ==> u in con' && u in pcs' && con'[u] == con[u] && pcs'[u] == pcs[u]
    requires forall i :: Holds(t, i, con, pcs) ==> i in done' || Holds(t, i, con', pcs')
    ensures CoverOk(head, con', pcs', done')
  {
    forall i | 0 <= i < head ensures Covered(i, con', pcs', done') {
      assert Covered(i, con, pcs, done);
      if i !in done {
        var u :| Holds(u, i, con, pcs);
        assert u != t ==> Holds(u, i, con', pcs');
      }
    }
  }

  lemma Steadiness(ix: X.Index)
    requires X.Inv(ix)
    ensures X.Steady(ix, ix)
  {
    X.ValueIsSteady(ix, ix);
  }

  /** A consumer that only moves leaves everybody else's invariant alone. */
  lemma OthersAfterMove(s: State, t: Thread, c: Consumer)
    requires Inv(s) && t in s.con && s.q.pc[t].Claimed?
    requires ConsumerOk(c, t, s.q.pc[t], s.ix, s.delivered, s.done, s.role)
    ensures ConsumersOk(s.con[t := c], s.q.pc, s.ix, s.delivered, s.done, s.role)
  {
    hide T.Inv, X.Inv, StoredOk, BlocksOk, RolesOk, CoverOk, HistoryOk, ProducerOk, ConsumerOk;
  }

  lemma MoveKeeps(s: State, t: Thread, c: Consumer)
    requires Inv(s) && t in s.con && t in s.q.pc && s.q.pc[t].Claimed?
    requires ConsumerOk(c, t, s.q.pc[t], s.ix, s.delivered, s.done, s.role)
    requires Pending(c, s.q.pc[t].first) == Pending(s.con[t], s.q.pc[t].first)
    requires !HasBlock(s.con[t])
    ensures Inv(s.(con := s.con[t := c]))
  {
    hide T.Inv, X.Inv, StoredOk, BlocksOk, RolesOk, CoverOk, HistoryOk, ConsumerOk, ConsumersOk, ProducingOk, TailOk,
      FilledOk, RoomOk, X.Shape, BlocksFor;
    OthersAfterMove(s, t, c);
    RolesAfterMove(s.role, s.ix.live, s.prod, s.chain, s.con, t, c);
    CoverAfterMove(s.q.sh.head, s.con, s.con[t := c], s.q.pc, s.q.pc, s.done, s.done, t);
  }

  lemma LoadHeaderKeeps(s: State, t: Thread)
    requires Inv(s) && CanConsume(s, t) && s.con[t].LoadHeader?
    ensures Inv(Consume(s, t))
  {
    hide Inv, X.Shape;
    InvParts(s, t);
    var c := LoadTail(|s.ix.headers| - 1);
    assert HeaderFits(s.ix, c.g, s.q.pc[t].first, End(s, t)) by {
      CurrentFits(s.ix, s.q.pc[t].first, End(s, t));
    }
    MoveKeeps(s, t, c);
  }

  lemma CurrentFits(ix: X.Index, a: nat, end: nat)
    requires X.Shape(ix)
    ensures HeaderFits(ix, |ix.headers| - 1, a, end)
  {
    assert X.HeaderShape(ix, ix.headers[|ix.headers| - 1]);
  }

  /** The tail slot of any header a consumer may load has a key while the consumer's blocks are live. */
  lemma TailHasKey(s: State, g: nat, n: nat)
    requires Inv(s) && g < |s.ix.headers| && n in s.ix.live && n < BlocksFor(s.q.sh.tail)
    ensures X.Shape(s.ix) && KeyIn(s.ix, g, s.ix.headers[g].tail)
  {
    hide T.Inv, StoredOk, BlocksOk, RolesOk, CoverOk, HistoryOk, ConsumersOk, ProducingOk, TailOk, FilledOk, RoomOk,
      X.HeaderOk, BlocksFor, X.InWindow;
    assert X.HeaderShape(s.ix, s.ix.headers[g]);
    if g == |s.ix.headers| - 1 {
      assert s.ix.entries[X.Ent(s.ix.Cur(), s.ix.next - 1)].key == Some(s.ix.next - 1);
    }
  }

  lemma LoadTailKeeps(s: State, t: Thread)
    requires Inv(s) && CanConsume(s, t) && s.con[t].LoadTail?
    ensures Inv(Consume(s, t))
  {
    hide Inv, X.Shape, HeaderFits, KeyIn;
    InvParts(s, t);
    var first := s.q.pc[t].first;
    ClaimBelowHead(s, t);
    PendingIsLive(s, t, first);
    InvIndices(s);
    BlocksForSplits(s.q.sh.tail, first);
    TailHasKey(s, s.con[t].g, BlockOf(first));
    MoveKeeps(s, t, LoadKey(s.con[t].g, s.ix.headers[s.con[t].g].tail));
  }

  lemma LoadKeyKeeps(s: State, t: Thread)
    requires Inv(s) && CanConsume(s, t) && s.con[t].LoadKey?
    ensures Inv(Consume(s, t))
  {
    hide Inv, X.Inv, X.Shape, X.LookUp, HeaderFits, BlockOf;
    InvParts(s, t);
    ClaimBelowHead(s, t);
    var LoadKey(g, tail) := s.con[t];
    var h, first := s.ix.headers[g], s.q.pc[t].first;
    var k := s.ix.entries[h.slots[tail]].key;
    assert X.Inv(s.ix) by {
      InvIndex(s);
    }
    X.LookUpFindsSlot(s.ix, g, tail, k.value, BlockOf(first));
    HeaderIsShaped(s.ix, g);
    MoveKeeps(s, t, LoadValue(g, X.LookUp(h, tail, k.value, BlockOf(first)), first));
  }

  lemma HeaderIsShaped(ix: X.Index, g: nat)
    requires X.Shape(ix) && g < |ix.headers|
    ensures X.HeaderShape(ix, ix.headers[g])
  {
  }

  lemma InvIndex(s: State)
    requires Inv(s)
    ensures X.Inv(s.ix) && T.Inv(s.q)
  {
  }

  /** The entry a consumer loads points to the block its index lies in: line 2858, and no null pointer is followed. */
  lemma LoadValueFinds(s: State, t: Thread)
    requires Inv(s) && CanConsume(s, t) && s.con[t].LoadValue?
    ensures
      var LoadValue(g, p, i) := s.con[t];
      var n := BlockOf(i);
      && X.HeaderShape(s.ix, s.ix.headers[g]) && n in s.ix.live
      && s.ix.entries[s.ix.headers[g].slots[p]] == X.Entry(Some(n), Some(s.ix.live[n]))
  {
    hide Inv, BlockOf, X.Inv, X.Slot;
    InvParts(s, t);
    InvIndex(s);
    var LoadValue(g, p, i) := s.con[t];
    PendingIsLive(s, t, i);
    HeaderIsShaped(s.ix, g);
    assert X.Has(s.ix, s.ix.headers[g], BlockOf(i));
    LiveEntry(s.ix, BlockOf(i));
  }

  lemma LiveEntry(ix: X.Index, n: nat)
    requires X.Inv(ix) && n in ix.live
    ensures X.Ent(ix.Cur(), n) < |ix.entries| && ix.entries[X.Ent(ix.Cur(), n)] == X.Entry(Some(n), Some(ix.live[n]))
  {
    hide X.HeadersOk, X.Slot, X.InWindow;
    assert X.ValueOk(ix, n);
  }

  lemma LoadValueKeeps(s: State, t: Thread)
    requires Inv(s) && CanConsume(s, t) && s.con[t].LoadValue?
    ensures Inv(Consume(s, t))
  {
    hide Inv, X.Shape, HeaderFits, BlockOf;
    InvParts(s, t);
    LoadValueFinds(s, t);
    var LoadValue(g, p, i) := s.con[t];
    MoveKeeps(s, t, Read(g, p, i, s.ix.live[BlockOf(i)], i));
  }

  // ---------------------------------------------------------------- a consumer takes an element

  /** Two blocks of the index are different blocks of memory. */
  lemma LiveApart(live: map<nat, BlockId>, count: map<BlockId, nat>, done: set<nat>, role: map<BlockId, Role>, m: nat, n: nat)
    requires BlocksOk(live, count, done, role) && m in live && n in live && live[m] == live[n]
    ensures m == n
  {
    assert BlockOk(m, live[m], count, done, role) && BlockOk(n, live[n], count, done, role);
  }

  /** What is about to be read at index i is what was enqueued there. */
  lemma ReadFinds(s: State, t: Thread)
    requires Inv(s) && CanConsume(s, t) && s.con[t].Read?
    ensures
      var Read(g, p, i, id, start) := s.con[t];
      && i < s.q.sh.head <= |s.history| && i !in s.delivered && i !in s.done
      && BlockOf(i) in s.ix.live && s.ix.live[BlockOf(i)] == id
      && (id, Offset(i)) in s.mem && s.mem[(id, Offset(i))] == s.history[i]
  {
    hide Inv, BlockOf, Offset, X.Shape, HeaderFits, SlotOf, X.Has;
    InvParts(s, t);
    InvIndices(s);
    ClaimBelowHead(s, t);
    var i := s.con[t].i;
    assert Stored(s.ix.live, s.mem, s.filled, i);
    assert s.filled[i] == s.history[i];
  }

  lemma StoredAfterRead(live: map<nat, BlockId>, mem: map<(BlockId, nat), Item>, filled: seq<Item>,
                        delivered: map<nat, Item>, done: set<nat>, count: map<BlockId, nat>, role: map<BlockId, Role>,
                        i: nat, v: Item)
    requires StoredOk(live, mem, filled, delivered, done) && BlocksOk(live, count, done, role)
    requires BlockOf(i) in live
    ensures StoredOk(live, mem - {(live[BlockOf(i)], Offset(i))}, filled, delivered[i := v], done)
  {
    hide BlockOf, Offset, BlocksOk;
    var mem' := mem - {(live[BlockOf(i)], Offset(i))};
    forall j | 0 <= j < |filled| && j !in delivered[i := v] ensures Stored(live, mem', filled, j) {
      assert Stored(live, mem, filled, j);
      if live[BlockOf(j)] == live[BlockOf(i)] {
        LiveApart(live, count, done, role, BlockOf(j), BlockOf(i));
        OffsetsDiffer(j, i);
      }
    }
  }

  /** No other consumer has index k pending. */
  lemma NotPendingElsewhere(s: State, t: Thread, u: Thread, k: nat)
    requires Inv(s) && t != u && Holds(t, k, s.con, s.q.pc)
    ensures !Holds(u, k, s.con, s.q.pc)
  {
    if !Holds(u, k, s.con, s.q.pc) { return; }
    hide Inv, T.Inv, X.Shape, PlaceOk;
    InvParts(s, t);
    InvParts(s, u);
    ClaimsApart(s, t, u);
  }

  lemma ClaimsApart(s: State, t: Thread, u: Thread)
    requires Inv(s) && t in s.con && u in s.con && t != u && t in s.q.pc && u in s.q.pc
    ensures T.Apart(s.q.pc[t], s.q.pc[u])
  {
    hide T.SharedOk, X.Inv, StoredOk, BlocksOk, RolesOk, CoverOk, HistoryOk, ConsumersOk, ProducerOk, T.Apart;
  }

  /** No block with an index that is still to be completed has left the index. */
  ghost predicate StillLive(s: State, s': State) {
    forall k: nat :: k < s.q.sh.head && k !in s.done && BlockOf(k) in s.ix.live ==>
      BlockOf(k) in s'.ix.live && s'.ix.live[BlockOf(k)] == s.ix.live[BlockOf(k)]
  }

  /** All consumers but t rest while t takes an element, completes some or moves. */
  lemma OthersRest(s: State, s': State, t: Thread)
    requires Inv(s) && t in s.con && s.q.pc[t].Claimed? && X.Steady(s.ix, s'.ix) && StillLive(s, s')
    requires s'.con.Keys == s.con.Keys && s'.q.pc.Keys == s.q.pc.Keys
    requires forall u :: u in s.con && u != t ==> s'.con[u] == s.con[u] && s'.q.pc[u] == s.q.pc[u]
    requires forall k :: !Holds(t, k, s.con, s.q.pc) ==>
               (k in s'.delivered <==> k in s.delivered) && (k in s'.done ==> k in s.done)
    requires forall k :: k in s.delivered ==> k in s'.delivered
    requires forall id :: id in s.role && (s.role[id].Freed? || s.role[id].Retiring?) && s.role[id].t != t ==>
               id in s'.role && s'.role[id] == s.role[id]
    requires X.Shape(s'.ix) && ConsumerOk(s'.con[t], t, s'.q.pc[t], s'.ix, s'.delivered, s'.done, s'.role)
    ensures ConsumersOk(s'.con, s'.q.pc, s'.ix, s'.delivered, s'.done, s'.role)
  {
    hide Inv, X.Shape, X.Steady, ConsumerOk, BlockOf;
    InvKeys(s);
    forall u | u in s'.con ensures ConsumerOk(s'.con[u], u, s'.q.pc[u], s'.ix, s'.delivered, s'.done, s'.role) {
      if u != t {
        OtherRests(s, s', t, u);
      }
    }
  }

  lemma InvShape(s: State)
    requires Inv(s)
    ensures X.Shape(s.ix)
  {
  }

  lemma InvKeys(s: State)
    requires Inv(s)
    ensures s.con.Keys == s.q.pc.Keys
  {
  }

  lemma OtherRests(s: State, s': State, t: Thread, u: Thread)
    requires Inv(s) && t in s.con && u in s.con && u != t && s.q.pc[t].Claimed? && X.Steady(s.ix, s'.ix) && StillLive(s, s')
    requires u in s'.con && u in s'.q.pc && u in s.q.pc && s'.con[u] == s.con[u] && s'.q.pc[u] == s.q.pc[u]
    requires forall k :: !Holds(t, k, s.con, s.q.pc) ==>
               (k in s'.delivered <==> k in s.delivered) && (k in s'.done ==> k in s.done)
    requires forall k :: k in s.delivered ==> k in s'.delivered
    requires forall id :: id in s.role && (s.role[id].Freed? || s.role[id].Retiring?) && s.role[id].t != t ==>
               id in s'.role && s'.role[id] == s.role[id]
    ensures X.Shape(s'.ix) && ConsumerOk(s'.con[u], u, s'.q.pc[u], s'.ix, s'.delivered, s'.done, s'.role)
  {
    hide Inv, X.Shape, X.Steady, BlockOf, X.Has, HeaderFits, SlotOf;
    InvParts(s, u);
    if s.q.pc[u].Claimed? {
      forall k: nat | Holds(u, k, s.con, s.q.pc) ensures !Holds(t, k, s.con, s.q.pc) {
        NotPendingElsewhere(s, u, t, k);
      }
      assert forall k :: Pending(s.con[u], s.q.pc[u].first) <= k < End(s, u) ==> Holds(u, k, s.con, s.q.pc);
      ClaimBelowHead(s, u);
    }
    RestKept(s, s', u);
  }

  lemma ReadKeeps(s: State, t: Thread)
    requires Inv(s) && CanConsume(s, t) && s.con[t].Read?
    ensures Inv(Consume(s, t))
  {
    hide T.Inv, X.Inv, StoredOk, BlocksOk, RolesOk, CoverOk, HistoryOk, ConsumerOk, ConsumersOk, ProducingOk, TailOk,
      FilledOk, RoomOk, X.Shape, BlocksFor, BlockOf, Offset;
    var Read(g, p, i, id, start) := s.con[t];
    var s' := Consume(s, t);
    ReadFinds(s, t);
    ReadOk(s, t);
    Steadiness(s.ix);
    assert Holds(t, i, s.con, s.q.pc) by {
      ReadHolds(s, t);
    }
    OthersRest(s, s', t);
    HistoryAfterRead(s.q.sh.tail, s.q.sh.head, s.history, s.delivered, s.done, i, s.history[i]);
    StoredAfterRead(s.ix.live, s.mem, s.filled, s.delivered, s.done, s.count, s.role, i, s.history[i]);
    RolesAfterMove(s.role, s.ix.live, s.prod, s.chain, s.con, t, s'.con[t]);
    CoverAfterMove(s.q.sh.head, s.con, s'.con, s.q.pc, s.q.pc, s.done, s.done, t);
  }

  lemma ReadHolds(s: State, t: Thread)
    requires Inv(s) && CanConsume(s, t) && s.con[t].Read?
    ensures Holds(t, s.con[t].i, s.con, s.q.pc)
  {
    hide Inv, BlockOf, X.Shape, HeaderFits, SlotOf;
    InvParts(s, t);
  }

  lemma HistoryAfterRead(tail: nat, head: nat, history: seq<Item>, delivered: map<nat, Item>, done: set<nat>, i: nat, v: Item)
    requires HistoryOk(tail, head, history, delivered, done) && i < head && i < |history| && v == history[i]
    ensures HistoryOk(tail, head, history, delivered[i := v], done)
  {
  }

  lemma ReadOk(s: State, t: Thread)
    requires Inv(s) && CanConsume(s, t) && s.con[t].Read?
    requires (s.con[t].id, Offset(s.con[t].i)) in s.mem
    ensures
      var s' := Consume(s, t);
      && X.Shape(s'.ix) && s'.con == s.con[t := s'.con[t]] && t in s'.q.pc
      && ConsumerOk(s'.con[t], t, s'.q.pc[t], s'.ix, s'.delivered, s'.done, s'.role)
      && !HasBlock(s.con[t]) && Pending(s'.con[t], s.q.pc[t].first) == Pending(s.con[t], s.q.pc[t].first)
  {
    hide Inv, BlockOf, Offset, X.Shape, HeaderFits, SlotOf;
    InvParts(s, t);
    BlockOfNext(s.con[t].i);
  }
}
