/**
  The index arithmetic of the implicit producer on wrapped words, against the unbounded one of the other modules
  (source/utils/concurrentqueue.h:2550-2551, 2844-2857). TURN is the number of blocks in one turn of the index.
*/
module IndexWords {
  import opened Wrappers
  import opened Words
  import opened Blocks
  import opened Quotients
  import Circular
  import T = Tickets
  import X = BlockIndex
  import Q = ImplicitQueue
  import ImplicitConsumers
  import ImplicitRuns

  /** Block sizes are powers of two, so a whole number of blocks makes one turn of the index. */
  ghost predicate Turn(turn: nat) {
    BLOCK_SIZE * turn == WORD
  }

  /** w & ~(BLOCK_SIZE - 1) on a word. */
  function Down(w: nat): int {
    w - w % BLOCK_SIZE
  }

  lemma SameRemainder(x: int, m: int, b: nat, turn: nat)
    requires b > 0
    ensures (x + m * (b * turn)) % b == x % b
  {
    Circular.Remainder(x, b);
    assert m * (b * turn) == (m * turn) * b;
    assert Circular.Turns(x, x + m * (b * turn), -(m * turn), b);
    Circular.Transitive(x % b, x, x + m * (b * turn), b);
    Circular.RemainderIs(x + m * (b * turn), x % b, b);
  }

  lemma WrapTurns(x: int)
    ensures Wrap(x) == x - (x / WORD) * WORD
  {
  }

  lemma WrapMore(x: int, m: int)
    ensures Wrap(x + m * WORD) == Wrap(x)
  {
  }

  /** Rounding a word down rounds the index down. */
  lemma DownIsBase(x: int, turn: nat)
    requires Turn(turn)
    ensures Wrap(Down(Wrap(x))) == Wrap(Base(x / BLOCK_SIZE))
  {
    hide Wrap;
    WrapTurns(x);
    SameRemainder(x, -(x / WORD), BLOCK_SIZE, turn);
    assert -(x / WORD) * (BLOCK_SIZE * turn) == -(x / WORD) * WORD;
    assert x == (x / BLOCK_SIZE) * BLOCK_SIZE + x % BLOCK_SIZE;
    assert Down(Wrap(x)) == Base(x / BLOCK_SIZE) + -(x / WORD) * WORD;
    WrapMore(Base(x / BLOCK_SIZE), -(x / WORD));
  }

  /** The last block the first x indices touch, also for x == 0, where the code's x - 1 wraps. */
  lemma LastBlock(x: nat)
    ensures (x - 1) / BLOCK_SIZE == BlocksFor(x) - 1
  {
    BlocksForIs(x);
    BaseNext(BlocksFor(x) - 1);
    QuotientIs(x - 1, BlocksFor(x) - 1, BLOCK_SIZE);
  }

  /** How many blocks an enqueue of count items allocates. */
  function NewBlocks(start: nat, count: nat): nat {
    BlocksForOrder(start, start + count);
    BlocksFor(start + count) - BlocksFor(start)
  }

  /**
    blockBaseDiff at line 2550 counts exactly the blocks an enqueue of count items has to allocate, wherever the tail
    stands, and currentTailIndex at line 2551 is one block before the first of them.
  */
  lemma BlockBaseDiffCounts(start: nat, count: nat, turn: nat)
    requires Turn(turn) && Base(NewBlocks(start, count)) < WORD
    ensures Wrap(Down(Wrap(start + count - 1)) - Down(Wrap(start - 1))) == Base(NewBlocks(start, count))
    ensures Wrap(Down(Wrap(start - 1)) + BLOCK_SIZE) == Wrap(Base(BlocksFor(start)))
  {
    hide Wrap, Down, BlocksFor;
    var first: int, last: int := BlocksFor(start), BlocksFor(start + count);
    DownIsBase(start + count - 1, turn);
    DownIsBase(start - 1, turn);
    LastBlock(start);
    LastBlock(start + count);
    BlocksForOrder(start, start + count);
    SameWhenWrapped(Down(Wrap(start + count - 1)), Base(last - 1), Down(Wrap(start - 1)), Base(first - 1));
    assert Base(last - 1) - Base(first - 1) == Base(last - first);
    WrapOnce(Base(last - first));
    BaseNext(first - 1);
    SameWhenAdded(Down(Wrap(start - 1)), Base(first - 1), BLOCK_SIZE);
  }

  lemma SameWhenWrapped(a: int, a': int, b: int, b': int)
    requires Wrap(a) == Wrap(a') && Wrap(b) == Wrap(b')
    ensures Wrap(a - b) == Wrap(a' - b')
  {
    WrapDifference(a, b);
    WrapDifference(a', b');
  }

  lemma SameWhenAdded(a: int, a': int, d: int)
    requires Wrap(a) == Wrap(a')
    ensures Wrap(a + d) == Wrap(a' + d)
  {
    SameWhenWrapped(a, a', -d, -d);
  }

  // ---------------------------------------------------------------- the lookup

  /**
    The slot the code computes for the block d blocks after the one in the tail slot. The signed difference is
    converted back to an unsigned word before it is divided, since BLOCK_SIZE is unsigned.
  */
  function WordSlot(tail: nat, d: int, cap: nat): nat
    requires cap > 0
  {
    (tail + Wrap(Base(d)) / BLOCK_SIZE) % cap
  }

  /** The slot if the division kept the sign, as the comment at lines 2854-2855 has it. */
  function SignedSlot(tail: nat, d: int, cap: nat): nat
    requires cap > 0
  {
    (tail + d) % cap
  }

  lemma WordQuotient(d: int, turn: nat)
    requires Turn(turn) && 0 <= d + turn < 2 * turn
    ensures Wrap(Base(d)) / BLOCK_SIZE == if d >= 0 then d else d + turn
  {
    var q := if d >= 0 then d else d + turn;
    assert Base(q) == if d >= 0 then Base(d) else Base(d) + WORD;
    ProductOrder(q, turn, BLOCK_SIZE);
    assert 0 <= Base(q) < WORD by {
      assert turn * BLOCK_SIZE == WORD;
    }
    WrapOnce(Base(d));
    QuotientIs(Base(q), q, BLOCK_SIZE);
  }

  /**
    The two readings of the division name the same slot for blocks ahead of the tail, and for blocks behind it exactly
    when the capacity divides the number of blocks in a turn, which every power of two up to that number does.
  */
  lemma ReadingsAgreeExactly(tail: nat, d: int, cap: nat, turn: nat)
    requires Turn(turn) && 0 <= d + turn < 2 * turn && cap > 0
    ensures WordSlot(tail, d, cap) == SignedSlot(tail, d, cap) <==> d >= 0 || turn % cap == 0
  {
    hide Wrap, Base;
    WordQuotient(d, turn);
    if d < 0 {
      ShiftsAgreeExactly(tail + d, turn, cap);
    }
  }

  lemma ShiftsAgreeExactly(x: int, turn: nat, cap: nat)
    requires cap > 0
    ensures (x + turn) % cap == x % cap <==> turn % cap == 0
  {
    Circular.Remainder(x, cap);
    Circular.Remainder(x + turn, cap);
    Circular.Remainder(turn, cap);
    if turn % cap == 0 {
      Circular.Shift(0, turn, x, cap);
      Circular.Transitive(x % cap, x, x + turn, cap);
      Circular.RemainderIs(x + turn, x % cap, cap);
    }
    if (x + turn) % cap == x % cap {
      Circular.Symmetric(x % cap, x, cap);
      Circular.Transitive(x, x % cap, x + turn, cap);
      Circular.Shift(x, x + turn, -x, cap);
      Circular.RemainderIs(turn, 0, cap);
    }
  }

  /** So on words, with wrapped keys, the code looks up the slot that the block index model looks up. */
  lemma LookUpOnWords(h: X.Header, tail: nat, k: nat, n: nat, turn: nat)
    requires Turn(turn) && h.cap > 0 && turn % h.cap == 0 && n < k + turn && k < n + turn
    ensures (tail + Wrap(Wrap(Base(n)) - Wrap(Base(k))) / BLOCK_SIZE) % h.cap == X.LookUp(h, tail, k, n)
  {
    hide Wrap;
    WrapDifference(Base(n), Base(k));
    var d: int := (n as int) - k;
    assert Base(n) - Base(k) == Base(d);
    ReadingsAgreeExactly(tail, d, h.cap, turn);
  }

  // ---------------------------------------------------------------- the lookups of a run

  function Elements(xs: seq<nat>): set<nat> {
    set x | x in xs
  }

  lemma {:induction false} DistinctSize(xs: seq<nat>)
    requires forall p, q :: 0 <= p < q < |xs| ==> xs[p] != xs[q]
    ensures |Elements(xs)| == |xs|
  {
    if xs != [] {
      var n := |xs| - 1;
      DistinctSize(xs[..n]);
      assert Elements(xs) == Elements(xs[..n]) + {xs[n]};
    }
  }

  /** As many different numbers below a bound as there are leave none out. */
  lemma NoneLeftOut(xs: seq<nat>, e: nat)
    requires forall p :: 0 <= p < |xs| ==> xs[p] < |xs|
    requires forall p, q :: 0 <= p < q < |xs| ==> xs[p] != xs[q]
    requires e < |xs|
    ensures exists p :: 0 <= p < |xs| && xs[p] == e
  {
    if e !in xs {
      DistinctSize(xs);
      T.SubsetSize(Elements(xs) + {e}, T.Range(0, |xs|));
    }
  }

  /** Whatever header a key is read from, it is less than the current capacity away from any block in the index. */
  lemma KeysAreNear(ix: X.Index, g: nat, p: nat, n: nat)
    requires X.Inv(ix) && g < |ix.headers| && p < ix.headers[g].cap && n in ix.live
    ensures X.HeaderShape(ix, ix.headers[g]) && X.Divides(ix.headers[g].cap, ix.Cur().cap)
    ensures
      var key := ix.entries[ix.headers[g].slots[p]].key;
      key.Some? ==> n < key.value + ix.Cur().cap && key.value < n + ix.Cur().cap
  {
    hide X.HeadersOk, X.ValueOk, X.Divides, X.Slot, X.Ent;
    assert X.HeaderShape(ix, ix.headers[g]) && X.HeaderShape(ix, ix.Cur());
    NoneLeftOut(ix.Cur().slots, ix.headers[g].slots[p]);
    var q :| 0 <= q < |ix.Cur().slots| && ix.Cur().slots[q] == ix.headers[g].slots[p];
    assert X.InWindow(ix, ix.entries[ix.Cur().slots[q]].key);
  }

  lemma DividesToo(small: nat, big: nat, turn: nat)
    requires X.Divides(small, big) && big > 0 && turn > 0 && turn % big == 0
    ensures small > 0 && turn % small == 0 && big <= turn
  {
    var r :| X.Times(small, r, big);
    var q := turn / big;
    assert turn == q * big + turn % big;
    assert turn == (q * r) * small;
    Circular.Remainder(turn, small);
    assert Circular.Turns(0, turn, -(q * r), small);
    Circular.RemainderIs(turn, 0, small);
    assert q > 0;
    ProductOrder1(q, big);
  }

  lemma ProductOrder1(q: nat, big: nat)
    ensures q > 0 ==> big <= q * big
  {
  }

  /** The slot get_block_index_index_for_index computes on words for an index, from a tail slot and the key found there. */
  function SlotOnWords(h: X.Header, tail: nat, k: nat, index: nat): nat
    requires h.cap > 0
  {
    (tail + Wrap(Down(Wrap(index)) - Wrap(Base(k))) / BLOCK_SIZE) % h.cap
  }

  lemma SlotOnWordsIs(h: X.Header, tail: nat, k: nat, index: nat, turn: nat)
    requires Turn(turn) && h.cap > 0 && turn % h.cap == 0 && BlockOf(index) < k + turn && k < BlockOf(index) + turn
    ensures SlotOnWords(h, tail, k, index) == X.LookUp(h, tail, k, BlockOf(index))
  {
    hide Wrap, Down;
    DownIsBase(index, turn);
    WrapOnce(Base(BlockOf(index)));
    WrapOnce(Base(k));
    SameWhenWrapped(Down(Wrap(index)), Wrap(Base(BlockOf(index))), Wrap(Base(k)), Wrap(Base(k)));
    LookUpOnWords(h, tail, k, BlockOf(index), turn);
  }

  /** The capacity of the index divides the number of blocks in a turn, as every power of two up to that number does. */
  predicate FitsTurn(ix: X.Index, turn: nat) {
    |ix.headers| > 0 && ix.Cur().cap > 0 && turn % ix.Cur().cap == 0
  }

  /**
    In every run, the slot every consumer computes on words from the header, tail and key it has read is the one the
    model looks up, as long as the capacity of the index divides the number of blocks in a turn. No key is too far off.
  */
  lemma ConsumerLooksUp(run: seq<Q.State>, i: nat, t: Q.Thread, turn: nat)
    requires Q.Run(run) && i < |run| && t in run[i].con && t in run[i].q.pc && run[i].q.pc[t].Claimed?
    requires run[i].con[t].LoadKey? && Turn(turn) && FitsTurn(run[i].ix, turn)
    ensures
      var s, g, tail, first := run[i], run[i].con[t].g, run[i].con[t].tail, run[i].q.pc[t].first;
      && Q.CanConsume(s, t) && X.HeaderShape(s.ix, s.ix.headers[g])
      && var h := s.ix.headers[g];
         var key := s.ix.entries[h.slots[tail]].key;
         key.Some? && Q.Consume(s, t).con[t] == Q.LoadValue(g, SlotOnWords(h, tail, key.value, first), first)
  {
    hide Q.Inv, Q.Run, ImplicitRuns.Stranded, X.Shape, X.Inv, X.LookUp, X.HeaderShape, X.Divides, BlockOf, SlotOnWords, Turn, X.Has;
    ImplicitRuns.ConsumerCanMove(run, i, t);
    ImplicitRuns.ClaimHasIndex(run, i, t);
    ImplicitRuns.RunHasInv(run, i);
    var s := run[i];
    var c, first := s.con[t], s.q.pc[t].first;
    ImplicitConsumers.InvParts(s, t);
    ImplicitConsumers.InvIndex(s);
    ImplicitConsumers.ClaimBelowHead(s, t);
    ImplicitConsumers.PendingIsLive(s, t, first);
    ImplicitConsumers.HeaderIsShaped(s.ix, c.g);
    KeyFound(s, t);
    KeysAreNear(s.ix, c.g, c.tail, BlockOf(first));
    TurnPositive(turn);
    CurPositive(s.ix);
    DividesToo(s.ix.headers[c.g].cap, s.ix.Cur().cap, turn);
    SlotOnWordsIs(s.ix.headers[c.g], c.tail, KeyOf(s, c.g, c.tail).value, first, turn);
  }

  ghost function KeyOf(s: Q.State, g: nat, tail: nat): Option<nat>
    requires g < |s.ix.headers| && X.HeaderShape(s.ix, s.ix.headers[g]) && tail < s.ix.headers[g].cap
  {
    s.ix.entries[s.ix.headers[g].slots[tail]].key
  }

  lemma KeyFound(s: Q.State, t: Q.Thread)
    requires Q.Inv(s) && Q.CanConsume(s, t) && s.con[t].LoadKey?
    ensures s.con[t].g < |s.ix.headers| && s.con[t].tail < s.ix.headers[s.con[t].g].cap
    ensures X.HeaderShape(s.ix, s.ix.headers[s.con[t].g]) && KeyOf(s, s.con[t].g, s.con[t].tail).Some?
  {
    hide Q.Inv, X.Shape, X.HeaderShape, Q.HeaderFits;
    ImplicitConsumers.InvParts(s, t);
    ImplicitConsumers.HeaderIsShaped(s.ix, s.con[t].g);
  }

  lemma TurnPositive(turn: nat)
    requires Turn(turn)
    ensures turn > 0
  {
  }

  lemma CurPositive(ix: X.Index)
    requires X.Inv(ix)
    ensures |ix.headers| > 0 && ix.Cur().cap > 0
  {
    hide X.HeadersOk, X.WindowOk, X.ValuesOk;
    assert X.HeaderShape(ix, ix.Cur());
  }
}
