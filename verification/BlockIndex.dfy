/**
  The circular block index of an implicit producer, which doubles in place while consumers go on reading older
  headers (source/utils/concurrentqueue.h:2790-2904).

  A block base is stored as the number of the block, that is, divided by BLOCK_SIZE. `phase`, `next`, `lo`, `hi`,
  `live` and `raw` are auxiliary: they say which blocks the entries stand for.
*/
module BlockIndex {
  import opened Wrappers
  import opened Circular

  type BlockId = nat
  type EntryId = nat
  type IndexSize = n: nat | n > 1 witness 2

  /** IMPLICIT_INITIAL_INDEX_SIZE: any size above 1; masks of a power of two are written as remainders. */
  const INDEX_SIZE: IndexSize

  /** key None is INVALID_BLOCK_BASE; value None is the null pointer. */
  datatype Entry = Entry(key: Option<nat>, value: Option<BlockId>)

  /** Slot p of a header holds the blocks congruent to p + phase. */
  datatype Header = Header(cap: nat, tail: nat, slots: seq<EntryId>, phase: int)

  datatype Index = Index(
    headers: seq<Header>,
    entries: seq<Entry>,
    next: nat,                  // the block to be inserted next; the tail slot belongs to the one before it
    lo: nat, hi: nat,           // the keys of the current header are exactly lo .. hi
    live: map<nat, BlockId>,    // blocks whose entry points to a block of memory
    raw: Option<nat>)           // a block whose key is stored but whose value is not yet
  {
    function Cur(): Header
      requires |headers| > 0
    {
      headers[|headers| - 1]
    }
  }

  // ---------------------------------------------------------------- operations

  function Slot(h: Header, n: int): (p: nat)
    requires h.cap > 0
    ensures p < h.cap
  {
    (n - h.phase) % h.cap
  }

  ghost predicate HeaderShape(ix: Index, h: Header) {
    && h.cap > 0 && |h.slots| == h.cap && h.tail < h.cap
    && h.cap <= |ix.entries|
    && (forall p :: 0 <= p < h.cap ==> h.slots[p] < h.cap)
    && (forall p, q :: 0 <= p < q < h.cap ==> h.slots[p] != h.slots[q])
  }

  ghost predicate Divides(small: nat, big: nat) {
    exists r: nat :: Times(small, r, big)
  }

  predicate Times(a: nat, r: nat, b: nat) {
    b == a * r
  }

  ghost predicate Shape(ix: Index) {
    && |ix.headers| > 0
    && (forall g :: 0 <= g < |ix.headers| ==> HeaderShape(ix, ix.headers[g]))
    && (forall g :: 0 <= g < |ix.headers| ==> Divides(ix.headers[g].cap, ix.Cur().cap))
    && |ix.entries| == ix.Cur().cap
  }

  /** The entry of block n in a header. */
  function Ent(h: Header, n: int): EntryId
    requires h.cap > 0 && |h.slots| == h.cap
  {
    h.slots[Slot(h, n)]
  }

  /** The slot after the tail, where insert_block_index_entry looks. */
  function NewTail(h: Header): nat
    requires h.cap > 0
  {
    (h.tail + 1) % h.cap
  }

  predicate SlotFree(e: Entry) {
    e.key == None || e.value == None
  }

  ghost function StoreKey(ix: Index): (ix': Index)
    requires Shape(ix)
    ensures ix'.live == ix.live
  {
    var e := ix.Cur().slots[NewTail(ix.Cur())];
    ix.(entries := ix.entries[e := ix.entries[e].(key := Some(ix.next))],
        lo := if ix.next == ix.hi && ix.hi - ix.lo == ix.Cur().cap then ix.lo + 1 else ix.lo,
        hi := if ix.next == ix.hi then ix.hi + 1 else ix.hi,
        raw := Some(ix.next))
  }

  ghost function SetTail(ix: Index, tail: nat, next: nat): (ix': Index)
    requires Shape(ix)
    ensures ix'.live == ix.live
  {
    var g := |ix.headers| - 1;
    ix.(headers := ix.headers[g := ix.headers[g].(tail := tail)], next := next)
  }

  ghost function StoreTail(ix: Index): (ix': Index)
    requires Shape(ix)
    ensures ix'.live == ix.live
  {
    SetTail(ix, NewTail(ix.Cur()), ix.next + 1)
  }

  /** rewind_block_index_tail. */
  ghost function Rewind(ix: Index): (ix': Index)
    requires Shape(ix) && ix.next > 0
    ensures ix'.live == ix.live
  {
    SetTail(ix, (ix.Cur().tail - 1) % ix.Cur().cap, ix.next - 1)
  }

  ghost function SetValue(ix: Index, e: EntryId, v: Option<BlockId>): Index
    requires e < |ix.entries|
  {
    ix.(entries := ix.entries[e := ix.entries[e].(value := v)])
  }

  /** The block of memory for the block inserted last is stored in its entry. */
  ghost function StoreValue(ix: Index, e: EntryId, id: BlockId): (ix': Index)
    requires e < |ix.entries| && ix.next > 0
    ensures ix'.live == ix.live[ix.next - 1 := id]
  {
    SetValue(ix, e, Some(id)).(live := ix.live[ix.next - 1 := id], raw := None)
  }

  /** No block of memory was to be had for the block inserted last. */
  ghost function DropValue(ix: Index, e: EntryId): (ix': Index)
    requires e < |ix.entries|
    ensures ix'.live == ix.live
  {
    SetValue(ix, e, None).(raw := None)
  }

  /** The entry of block n gives up its block of memory. */
  ghost function ClearValue(ix: Index, e: EntryId, n: nat): (ix': Index)
    requires e < |ix.entries|
    ensures ix'.live == ix.live - {n}
  {
    SetValue(ix, e, None).(live := ix.live - {n})
  }

  /** The index that new_block_index builds: the old slots in block order from the one after the tail, then new entries. */
  function Rotated(h: Header): (slots: seq<EntryId>)
    requires h.cap > 0 && |h.slots| == h.cap
    ensures |slots| == 2 * h.cap
  {
    seq(2 * h.cap, i requires 0 <= i < 2 * h.cap => if i < h.cap then h.slots[(h.tail + 1 + i) % h.cap] else i)
  }

  /** new_block_index; the values of the new entries are whatever memory held. */
  ghost function Grow(ix: Index, garbage: seq<Option<BlockId>>): (ix': Index)
    requires Shape(ix) && |garbage| == ix.Cur().cap
    ensures ix'.live == ix.live
  {
    var h := ix.Cur();
    var added := seq(h.cap, i requires 0 <= i < h.cap => Entry(None, garbage[i]));
    ix.(headers := ix.headers + [Header(2 * h.cap, h.cap - 1, Rotated(h), ix.next - h.cap)],
        entries := ix.entries + added)
  }

  /** The constructor's new_block_index. */
  ghost predicate InitIndex(ix: Index) {
    && ix.headers == [Header(INDEX_SIZE, INDEX_SIZE - 1, seq(INDEX_SIZE, i => i), 0)]
    && |ix.entries| == INDEX_SIZE
    && (forall e :: 0 <= e < |ix.entries| ==> ix.entries[e].key == None)
    && ix.next == ix.lo == ix.hi == 0 && ix.live == map[] && ix.raw == None
  }

  /** A null blockIndex: what the constructor leaves when its new_block_index fails. */
  const NO_INDEX := Index([], [], 0, 0, 0, map[], None)

  /** One of the indexes the constructor may build. */
  function FirstIndex(): (ix: Index)
    ensures InitIndex(ix)
  {
    Index([Header(INDEX_SIZE, INDEX_SIZE - 1, seq(INDEX_SIZE, i => i), 0)], seq(INDEX_SIZE, i => Entry(None, None)),
          0, 0, 0, map[], None)
  }

  // ---------------------------------------------------------------- invariant

  /** In every header, old or current, a key lies in a slot congruent to it. */
  ghost predicate KeyOk(ix: Index, h: Header, p: nat)
    requires HeaderShape(ix, h) && p < h.cap
  {
    var k := ix.entries[h.slots[p]].key;
    k.Some? ==> Congruent(k.value, p + h.phase, h.cap)
  }

  /** A slot of an older header and the slot of the current header that share an entry serve the same blocks. */
  ghost predicate SharedOk(ix: Index, h: Header, p: nat, q: nat)
    requires Shape(ix) && HeaderShape(ix, h) && p < h.cap && q < ix.Cur().cap
  {
    h.slots[p] == ix.Cur().slots[q] ==> Congruent(p + h.phase, q + ix.Cur().phase, h.cap)
  }

  ghost predicate HeaderOk(ix: Index, h: Header)
    requires Shape(ix) && HeaderShape(ix, h)
  {
    && (forall p :: 0 <= p < h.cap ==> KeyOk(ix, h, p))
    && (forall p, q :: 0 <= p < h.cap && 0 <= q < ix.Cur().cap ==> SharedOk(ix, h, p, q))
  }

  ghost predicate HeadersOk(ix: Index)
    requires Shape(ix)
  {
    && (forall g :: 0 <= g < |ix.headers| ==> HeaderOk(ix, ix.headers[g]))
    && (forall g :: 0 <= g < |ix.headers| - 1 ==> ix.entries[ix.headers[g].slots[ix.headers[g].tail]].key.Some?)
  }

  /** The keys of the current header are exactly lo .. hi, each in its slot. */
  ghost predicate WindowOk(ix: Index)
    requires Shape(ix)
  {
    && ix.lo <= ix.next <= ix.hi <= ix.lo + ix.Cur().cap
    && ix.Cur().tail == Slot(ix.Cur(), ix.next - 1)
    && (forall n :: ix.lo <= n < ix.hi ==> ix.entries[Ent(ix.Cur(), n)].key == Some(n))
    && (forall p :: 0 <= p < ix.Cur().cap ==> InWindow(ix, ix.entries[ix.Cur().slots[p]].key))
  }

  predicate InWindow(ix: Index, key: Option<nat>) {
    key.Some? ==> ix.lo <= key.value < ix.hi
  }

  ghost predicate ValueOk(ix: Index, n: nat)
    requires Shape(ix)
  {
    var v := ix.entries[Ent(ix.Cur(), n)].value;
    if n in ix.live then v == Some(ix.live[n]) else ix.raw == Some(n) || v == None
  }

  ghost predicate ValuesOk(ix: Index)
    requires Shape(ix)
  {
    && (forall n :: ix.lo <= n < ix.hi ==> ValueOk(ix, n))
    && (forall n :: n in ix.live ==> ix.lo <= n < ix.hi)
    && (ix.raw.Some? ==> ix.lo <= ix.raw.value < ix.hi && ix.raw.value !in ix.live)
  }

  ghost predicate Inv(ix: Index) {
    Shape(ix) && HeadersOk(ix) && WindowOk(ix) && ValuesOk(ix)
  }

  // ---------------------------------------------------------------- slots

  lemma SlotCongruent(h: Header, n: int)
    requires h.cap > 0
    ensures Congruent(Slot(h, n) + h.phase, n, h.cap)
  {
    Remainder(n - h.phase, h.cap);
    Shift((n - h.phase) % h.cap, n - h.phase, h.phase, h.cap);
  }

  lemma SlotIs(h: Header, n: int, p: nat)
    requires p < h.cap && Congruent(p + h.phase, n, h.cap)
    ensures Slot(h, n) == p
  {
    Shift(p + h.phase, n, -h.phase, h.cap);
    RemainderIs(n - h.phase, p, h.cap);
  }

  /** Blocks less than a turn apart have different slots. */
  lemma SlotsDiffer(h: Header, m: int, n: int)
    requires h.cap > 0 && m < n < m + h.cap
    ensures Slot(h, m) != Slot(h, n)
  {
    if Slot(h, m) == Slot(h, n) {
      SlotCongruent(h, m);
      SlotCongruent(h, n);
      Symmetric(Slot(h, m) + h.phase, m, h.cap);
      Transitive(m, Slot(h, m) + h.phase, n, h.cap);
      Unique(m, n, h.cap);
    }
  }

  lemma SlotMoves(h: Header, n: int, d: int)
    requires h.cap > 0
    ensures (Slot(h, n) + d) % h.cap == Slot(h, n + d)
  {
    SlotCongruent(h, n);
    Remainder(Slot(h, n) + d, h.cap);
    Shift((Slot(h, n) + d) % h.cap, Slot(h, n) + d, h.phase, h.cap);
    Shift(Slot(h, n) + h.phase, n, d, h.cap);
    Transitive((Slot(h, n) + d) % h.cap + h.phase, Slot(h, n) + d + h.phase, n + d, h.cap);
    SlotIs(h, n + d, (Slot(h, n) + d) % h.cap);
  }

  lemma EntsDiffer(ix: Index, m: int, n: int)
    requires Shape(ix) && m < n < m + ix.Cur().cap
    ensures Ent(ix.Cur(), m) != Ent(ix.Cur(), n)
  {
    SlotsDiffer(ix.Cur(), m, n);
    SlotCongruent(ix.Cur(), m);
    SlotCongruent(ix.Cur(), n);
    assert HeaderShape(ix, ix.Cur());
  }

  /** insert_block_index_entry looks at the slot of the next block. */
  lemma NewTailIsNext(ix: Index)
    requires Shape(ix) && WindowOk(ix)
    ensures NewTail(ix.Cur()) == Slot(ix.Cur(), ix.next)
  {
    SlotMoves(ix.Cur(), ix.next - 1, 1);
  }

  // ---------------------------------------------------------------- inserting a key

  ghost predicate CanStoreKey(ix: Index)
    requires Shape(ix)
  {
    && SlotFree(ix.entries[ix.Cur().slots[NewTail(ix.Cur())]])
    && ix.raw == None && forall n :: n in ix.live ==> n < ix.next
  }

  lemma StoreKeyShape(ix: Index)
    requires Shape(ix)
    ensures Shape(StoreKey(ix)) && StoreKey(ix).headers == ix.headers
  {
  }

  lemma {:induction false} StoreKeyHeader(ix: Index, g: nat)
    requires Shape(ix) && WindowOk(ix) && g < |ix.headers| && HeaderOk(ix, ix.headers[g])
    ensures Shape(StoreKey(ix)) && HeaderOk(StoreKey(ix), ix.headers[g])
  {
    hide Slot, Congruent, WindowOk;
    var h, c := ix.headers[g], ix.Cur();
    StoreKeyShape(ix);
    var ix' := StoreKey(ix);
    NewTailIsNext(ix);
    var q := NewTail(c);
    SlotCongruent(c, ix.next);
    Symmetric(q + c.phase, ix.next, c.cap);
    var r: nat :| Times(h.cap, r, c.cap);
    Coarser(ix.next, q + c.phase, r, h.cap);
    forall p | 0 <= p < h.cap ensures KeyOk(ix', h, p) {
      assert KeyOk(ix, h, p) && SharedOk(ix, h, p, q);
      if h.slots[p] == c.slots[q] {
        Symmetric(p + h.phase, q + c.phase, h.cap);
        Transitive(ix.next, q + c.phase, p + h.phase, h.cap);
      }
    }
    forall p, q | 0 <= p < h.cap && 0 <= q < c.cap ensures SharedOk(ix', h, p, q) {
      assert SharedOk(ix, h, p, q);
    }
  }

  lemma StoreKeyHeaders(ix: Index)
    requires Shape(ix) && WindowOk(ix) && HeadersOk(ix)
    ensures Shape(StoreKey(ix)) && HeadersOk(StoreKey(ix))
  {
    hide HeaderOk, WindowOk, Divides;
    StoreKeyShape(ix);
    forall g | 0 <= g < |ix.headers| ensures HeaderOk(StoreKey(ix), ix.headers[g]) {
      StoreKeyHeader(ix, g);
    }
  }

  /** A slot is refused only when every slot is taken, and then it holds the oldest key. */
  lemma NextSlotHolds(ix: Index)
    requires Shape(ix) && WindowOk(ix) && HeadersOk(ix)
    ensures
      var k := ix.entries[Ent(ix.Cur(), ix.next)].key;
      if ix.next < ix.hi then k == Some(ix.next)
      else if ix.hi == ix.lo + ix.Cur().cap then k == Some(ix.lo)
      else k == None
  {
    hide Slot, Congruent;
    var c := ix.Cur();
    var p := Slot(c, ix.next);
    SlotCongruent(c, ix.next);
    var k := ix.entries[c.slots[p]].key;
    assert HeaderOk(ix, ix.headers[|ix.headers| - 1]) && KeyOk(ix, c, p);
    if ix.next == ix.hi && ix.hi == ix.lo + c.cap {
      OneTurn(ix.next, c.cap);
      Transitive(p + c.phase, ix.next, ix.lo, c.cap);
      SlotIs(c, ix.lo, p);
    } else if ix.next == ix.hi && k.Some? {
      Transitive(k.value, p + c.phase, ix.next, c.cap);
      Unique(k.value, ix.next, c.cap);
    }
  }

  lemma StoreKeyKeys(ix: Index, n: nat)
    requires Shape(ix) && WindowOk(ix) && HeadersOk(ix)
    requires StoreKey(ix).lo <= n < StoreKey(ix).hi
    ensures StoreKey(ix).entries[Ent(ix.Cur(), n)].key == Some(n)
  {
    hide Slot, HeadersOk, Divides;
    StoreKeyShape(ix);
    NewTailIsNext(ix);
    if n < ix.next {
      EntsDiffer(ix, n, ix.next);
    } else if ix.next < n {
      EntsDiffer(ix, ix.next, n);
    }
  }

  lemma StoreKeyInWindow(ix: Index, p: nat)
    requires Shape(ix) && WindowOk(ix) && HeadersOk(ix) && p < ix.Cur().cap
    ensures InWindow(StoreKey(ix), StoreKey(ix).entries[ix.Cur().slots[p]].key)
  {
    hide Slot, HeadersOk, Divides;
    NewTailIsNext(ix);
    assert HeaderShape(ix, ix.Cur());
    var k := ix.entries[ix.Cur().slots[p]].key;
    assert InWindow(ix, k);
    if p != Slot(ix.Cur(), ix.next) && k.Some? {
      KeyIsInItsSlot(ix, p);
      FullTurn(ix.Cur(), ix.lo, ix.next);
    }
  }

  lemma StoreKeyWindow(ix: Index)
    requires Shape(ix) && WindowOk(ix) && HeadersOk(ix)
    ensures Shape(StoreKey(ix)) && WindowOk(StoreKey(ix))
  {
    hide Slot, HeadersOk, InWindow, Divides;
    StoreKeyShape(ix);
    var ix' := StoreKey(ix);
    forall n | ix'.lo <= n < ix'.hi ensures ix'.entries[Ent(ix'.Cur(), n)].key == Some(n) {
      StoreKeyKeys(ix, n);
    }
    forall p | 0 <= p < ix'.Cur().cap ensures InWindow(ix', ix'.entries[ix'.Cur().slots[p]].key) {
      StoreKeyInWindow(ix, p);
    }
  }

  lemma KeyIsInItsSlot(ix: Index, p: nat)
    requires Shape(ix) && HeadersOk(ix) && p < ix.Cur().cap && ix.entries[ix.Cur().slots[p]].key.Some?
    ensures p == Slot(ix.Cur(), ix.entries[ix.Cur().slots[p]].key.value)
  {
    hide Slot, Congruent;
    var c := ix.Cur();
    var k := ix.entries[c.slots[p]].key.value;
    assert HeaderOk(ix, ix.headers[|ix.headers| - 1]) && KeyOk(ix, c, p);
    Symmetric(k, p + c.phase, c.cap);
    SlotIs(c, k, p);
  }

  lemma FullTurn(h: Header, m: int, n: int)
    requires h.cap > 0
    ensures n == m + h.cap ==> Slot(h, m) == Slot(h, n)
  {
    if n == m + h.cap {
      SlotCongruent(h, n);
      OneTurn(n, h.cap);
      Transitive(Slot(h, n) + h.phase, n, m, h.cap);
      SlotIs(h, m, Slot(h, n));
    }
  }

  lemma StoreKeyValues(ix: Index)
    requires Shape(ix) && HeadersOk(ix) && WindowOk(ix) && ValuesOk(ix) && CanStoreKey(ix)
    ensures Shape(StoreKey(ix)) && ValuesOk(StoreKey(ix))
  {
    hide Slot, HeadersOk, InWindow, Divides;
    StoreKeyShape(ix);
    NewTailIsNext(ix);
    NextSlotHolds(ix);
    FullTurn(ix.Cur(), ix.lo, ix.next);
    var ix' := StoreKey(ix);
    assert ix.lo < ix.hi ==> ValueOk(ix, ix.lo);
    forall n | ix'.lo <= n < ix'.hi ensures ValueOk(ix', n) {
      assert n < ix.hi ==> ValueOk(ix, n);
      assert ix'.entries[Ent(ix.Cur(), n)].value == ix.entries[Ent(ix.Cur(), n)].value;
    }
  }

  lemma StoreKeyKeeps(ix: Index)
    requires Inv(ix) && CanStoreKey(ix)
    ensures Inv(StoreKey(ix))
  {
    hide Shape, HeadersOk, WindowOk, ValuesOk;
    StoreKeyHeaders(ix);
    StoreKeyWindow(ix);
    StoreKeyValues(ix);
  }

  // ---------------------------------------------------------------- moving the tail, storing values

  lemma SetTailKeeps(ix: Index, tail: nat, next: nat)
    requires Inv(ix) && tail < ix.Cur().cap && ix.lo <= next <= ix.hi && tail == Slot(ix.Cur(), next - 1)
    ensures Inv(SetTail(ix, tail, next))
  {
    var ix' := SetTail(ix, tail, next);
    hide Divides;
    assert ix'.Cur() == ix.Cur().(tail := tail);
    assert forall g :: 0 <= g < |ix.headers| - 1 ==> ix'.headers[g] == ix.headers[g];
    SetTailHeaders(ix, tail, next);
    assert forall n :: Slot(ix'.Cur(), n) == Slot(ix.Cur(), n);
    forall n | ix'.lo <= n < ix'.hi ensures ValueOk(ix', n) {
      assert ValueOk(ix, n);
    }
  }

  lemma SetTailShape(ix: Index, tail: nat, next: nat)
    requires Shape(ix) && tail < ix.Cur().cap
    ensures Shape(SetTail(ix, tail, next)) && |SetTail(ix, tail, next).headers| == |ix.headers|
    ensures SetTail(ix, tail, next).Cur() == ix.Cur().(tail := tail)
    ensures SetTail(ix, tail, next).entries == ix.entries
    ensures forall g :: 0 <= g < |ix.headers| - 1 ==> SetTail(ix, tail, next).headers[g] == ix.headers[g]
  {
    hide Divides;
    var ix' := SetTail(ix, tail, next);
    assert forall g :: 0 <= g < |ix.headers| ==> HeaderShape(ix, ix.headers[g]) && ix'.headers[g].cap == ix.headers[g].cap;
  }

  lemma SetTailHeader(ix: Index, tail: nat, next: nat, g: nat)
    requires Shape(ix) && g < |ix.headers| && HeaderOk(ix, ix.headers[g]) && tail < ix.Cur().cap
    ensures Shape(SetTail(ix, tail, next)) && HeaderOk(SetTail(ix, tail, next), SetTail(ix, tail, next).headers[g])
  {
    hide Congruent, Divides, Shape, SetTail;
    SetTailShape(ix, tail, next);
    var ix' := SetTail(ix, tail, next);
    ShapeOf(ix, g);
    ShapeOf(ix', g);
    var h, h' := ix.headers[g], ix'.headers[g];
    assert h'.cap == h.cap && h'.slots == h.slots && h'.phase == h.phase;
    forall p | 0 <= p < h'.cap ensures KeyOk(ix', h', p) {
      assert KeyOk(ix, h, p);
    }
    forall p, q | 0 <= p < h'.cap && 0 <= q < ix'.Cur().cap ensures SharedOk(ix', h', p, q) {
      assert SharedOk(ix, h, p, q);
    }
  }

  lemma ShapeOf(ix: Index, g: nat)
    requires Shape(ix) && g < |ix.headers|
    ensures HeaderShape(ix, ix.headers[g]) && HeaderShape(ix, ix.Cur())
  {
  }

  lemma SetTailHeaders(ix: Index, tail: nat, next: nat)
    requires Shape(ix) && HeadersOk(ix) && tail < ix.Cur().cap
    ensures Shape(SetTail(ix, tail, next)) && HeadersOk(SetTail(ix, tail, next))
  {
    hide HeaderOk, Divides, SetTail;
    SetTailShape(ix, tail, next);
    var ix' := SetTail(ix, tail, next);
    forall g | 0 <= g < |ix'.headers| ensures HeaderOk(ix', ix'.headers[g]) {
      SetTailHeader(ix, tail, next, g);
    }
  }

  lemma StoreTailKeeps(ix: Index)
    requires Inv(ix) && ix.raw == Some(ix.next)
    ensures Inv(StoreTail(ix))
  {
    hide HeadersOk;
    NewTailIsNext(ix);
    SetTailKeeps(ix, NewTail(ix.Cur()), ix.next + 1);
  }

  lemma RewindKeeps(ix: Index)
    requires Inv(ix) && ix.lo < ix.next
    ensures Inv(Rewind(ix))
  {
    hide HeadersOk;
    SlotMoves(ix.Cur(), ix.next - 1, -1);
    SetTailKeeps(ix, Slot(ix.Cur(), ix.next - 2), ix.next - 1);
  }

  /** Values say nothing about keys. */
  lemma SetValueKeeps(ix: Index, ix': Index)
    requires Shape(ix) && HeadersOk(ix) && WindowOk(ix)
    requires ix'.headers == ix.headers && |ix'.entries| == |ix.entries|
    requires ix'.lo == ix.lo && ix'.hi == ix.hi && ix'.next == ix.next
    requires forall e :: 0 <= e < |ix.entries| ==> ix'.entries[e].key == ix.entries[e].key
    ensures Shape(ix') && HeadersOk(ix') && WindowOk(ix')
  {
    hide Congruent, Divides, Slot;
    assert ix'.Cur() == ix.Cur();
    forall g | 0 <= g < |ix'.headers| ensures HeaderOk(ix', ix'.headers[g]) {
      var h := ix.headers[g];
      assert HeaderOk(ix, h);
      forall p | 0 <= p < h.cap ensures KeyOk(ix', h, p) {
        assert KeyOk(ix, h, p);
      }
      forall p, q | 0 <= p < h.cap && 0 <= q < ix'.Cur().cap ensures SharedOk(ix', h, p, q) {
        assert SharedOk(ix, h, p, q);
      }
    }
  }

  /** The values of all blocks but n keep their meaning when n's entry is written. */
  lemma OtherValues(ix: Index, ix': Index, n: nat, m: nat)
    requires Shape(ix) && Shape(ix') && ix'.headers == ix.headers
    requires ix.lo <= n < ix.hi && ix.lo <= m < ix.hi && n != m && ix.hi <= ix.lo + ix.Cur().cap
    requires forall e :: 0 <= e < |ix.entries| && e != Ent(ix.Cur(), n) ==> ix'.entries[e] == ix.entries[e]
    requires m in ix'.live <==> m in ix.live
    requires m in ix.live ==> ix'.live[m] == ix.live[m]
    requires ix.raw == Some(m) ==> ix'.raw == Some(m)
    requires ValueOk(ix, m)
    ensures ValueOk(ix', m)
  {
    hide Slot, Divides;
    if m < n {
      EntsDiffer(ix, m, n);
    } else {
      EntsDiffer(ix, n, m);
    }
  }

  lemma StoreValueKeeps(ix: Index, e: EntryId, id: BlockId)
    requires Inv(ix) && ix.next > 0 && ix.raw == Some(ix.next - 1) && e == Ent(ix.Cur(), ix.next - 1)
    ensures Inv(StoreValue(ix, e, id))
  {
    hide HeadersOk, Slot, Divides;
    var ix' := StoreValue(ix, e, id);
    SetValueKeeps(ix, ix');
    forall m | ix'.lo <= m < ix'.hi ensures ValueOk(ix', m) {
      assert ValueOk(ix, m);
      if m != ix.next - 1 {
        OtherValues(ix, ix', ix.next - 1, m);
      }
    }
  }

  lemma DropValueKeeps(ix: Index, e: EntryId)
    requires Inv(ix) && ix.raw.Some? && e == Ent(ix.Cur(), ix.raw.value)
    ensures Inv(DropValue(ix, e))
  {
    hide HeadersOk, Slot, Divides;
    var ix' := DropValue(ix, e);
    SetValueKeeps(ix, ix');
    forall m | ix'.lo <= m < ix'.hi ensures ValueOk(ix', m) {
      assert ValueOk(ix, m);
      if m != ix.raw.value {
        OtherValues(ix, ix', ix.raw.value, m);
      }
    }
  }

  lemma ClearValueKeeps(ix: Index, e: EntryId, n: nat)
    requires Inv(ix) && n in ix.live && e == Ent(ix.Cur(), n)
    ensures Inv(ClearValue(ix, e, n))
  {
    hide HeadersOk, Slot, Divides;
    var ix' := ClearValue(ix, e, n);
    SetValueKeeps(ix, ix');
    forall m | ix'.lo <= m < ix'.hi ensures ValueOk(ix', m) {
      assert ValueOk(ix, m);
      if m != n {
        OtherValues(ix, ix', n, m);
      }
    }
  }

  // ---------------------------------------------------------------- growing

  /** insert_block_index_entry found the slot of the next block taken. */
  ghost predicate MustGrow(ix: Index)
    requires Shape(ix)
  {
    && !SlotFree(ix.entries[ix.Cur().slots[NewTail(ix.Cur())]])
    && ix.raw == None && forall n :: n in ix.live ==> n < ix.next
  }

  /** The index grows only when every slot holds a key, the oldest of a block that is still alive. */
  lemma GrowsWhenFull(ix: Index)
    requires Inv(ix) && MustGrow(ix)
    ensures ix.next == ix.hi == ix.lo + ix.Cur().cap && ix.lo in ix.live
  {
    hide Slot, Divides, HeadersOk, InWindow;
    NewTailIsNext(ix);
    NextSlotHolds(ix);
    FullTurn(ix.Cur(), ix.lo, ix.next);
    assert ix.next < ix.hi ==> ValueOk(ix, ix.next);
    assert ix.lo < ix.hi ==> ValueOk(ix, ix.lo);
  }

  /** The copy loop lines the old entries up in block order. */
  lemma RotatedIs(ix: Index, i: nat)
    requires Shape(ix) && WindowOk(ix) && i < ix.Cur().cap
    ensures Rotated(ix.Cur())[i] == Ent(ix.Cur(), ix.next - ix.Cur().cap + i)
  {
    hide Slot;
    var h := ix.Cur();
    SlotMoves(h, ix.next - 1, 1 + i);
    FullTurn(h, ix.next - h.cap + i, ix.next + i);
    assert HeaderShape(ix, h);
  }

  lemma GrownSlot(ix: Index, garbage: seq<Option<BlockId>>, n: int)
    requires Shape(ix) && |garbage| == ix.Cur().cap && ix.next - ix.Cur().cap <= n < ix.next + ix.Cur().cap
    ensures Slot(Grow(ix, garbage).Cur(), n) == n - ix.next + ix.Cur().cap
  {
    var h := Grow(ix, garbage).Cur();
    Reflexive(n, h.cap);
    SlotIs(h, n, n - ix.next + ix.Cur().cap);
  }

  lemma GrownEnt(ix: Index, garbage: seq<Option<BlockId>>, n: int)
    requires Shape(ix) && WindowOk(ix) && |garbage| == ix.Cur().cap && ix.next - ix.Cur().cap <= n < ix.next
    ensures Ent(Grow(ix, garbage).Cur(), n) == Ent(ix.Cur(), n)
  {
    hide Slot, Rotated;
    GrownSlot(ix, garbage, n);
    RotatedIs(ix, n - ix.next + ix.Cur().cap);
  }

  lemma GrowShape(ix: Index, garbage: seq<Option<BlockId>>)
    requires Inv(ix) && |garbage| == ix.Cur().cap
    ensures Shape(Grow(ix, garbage))
  {
    hide Slot, Divides, HeadersOk, InWindow, ValuesOk;
    var ix', h := Grow(ix, garbage), ix.Cur();
    var h' := ix'.Cur();
    assert HeaderShape(ix, h);
    forall p | 0 <= p < h'.cap ensures h'.slots[p] < h'.cap {
      if p < h.cap {
        RotatedIs(ix, p);
      }
    }
    forall p, q | 0 <= p < q < h'.cap ensures h'.slots[p] != h'.slots[q] {
      if p < h.cap {
        RotatedIs(ix, p);
      }
      if q < h.cap {
        RotatedIs(ix, q);
        EntsDiffer(ix, ix.next - h.cap + p, ix.next - h.cap + q);
      }
    }
    forall g | 0 <= g < |ix'.headers| ensures HeaderShape(ix', ix'.headers[g]) && Divides(ix'.headers[g].cap, h'.cap) {
      if g < |ix.headers| {
        assert HeaderShape(ix, ix.headers[g]) && ix'.headers[g] == ix.headers[g];
        Doubled(ix.headers[g].cap, h.cap);
      } else {
        DividesItself(h'.cap);
      }
    }
  }

  lemma Doubled(a: nat, b: nat)
    requires Divides(a, b)
    ensures Divides(a, 2 * b)
  {
    var r: nat :| Times(a, r, b);
    assert Times(a, 2 * r, 2 * b);
  }

  lemma DividesItself(a: nat)
    ensures Divides(a, a)
  {
    assert Times(a, 1, a);
  }

  lemma GrowOldHeader(ix: Index, garbage: seq<Option<BlockId>>, g: nat)
    requires Inv(ix) && |garbage| == ix.Cur().cap && g < |ix.headers| && Shape(Grow(ix, garbage))
    ensures HeaderOk(Grow(ix, garbage), ix.headers[g])
  {
    hide Slot, Congruent, WindowOk, ValuesOk;
    var ix', h, c := Grow(ix, garbage), ix.headers[g], ix.Cur();
    assert HeaderOk(ix, h) && HeaderShape(ix, h);
    forall p | 0 <= p < h.cap ensures KeyOk(ix', h, p) {
      assert KeyOk(ix, h, p);
    }
    forall p, q | 0 <= p < h.cap && 0 <= q < ix'.Cur().cap ensures SharedOk(ix', h, p, q) {
      if q < c.cap {
        GrowShared(ix, garbage, g, p, q);
      }
    }
  }

  lemma GrowShared(ix: Index, garbage: seq<Option<BlockId>>, g: nat, p: nat, q: nat)
    requires Inv(ix) && |garbage| == ix.Cur().cap && g < |ix.headers| && Shape(Grow(ix, garbage))
    requires p < ix.headers[g].cap && q < ix.Cur().cap
    ensures SharedOk(Grow(ix, garbage), ix.headers[g], p, q)
  {
    hide Slot, Congruent, ValuesOk, Rotated;
    var h, c := ix.headers[g], ix.Cur();
    var n := ix.next - c.cap + q;
    assert HeaderOk(ix, h) && SharedOk(ix, h, p, Slot(c, n));
    RotatedIs(ix, q);
    SlotCongruent(c, n);
    var r: nat :| Times(h.cap, r, c.cap);
    Coarser(Slot(c, n) + c.phase, n, r, h.cap);
    if h.slots[p] == Rotated(c)[q] {
      Transitive(p + h.phase, Slot(c, n) + c.phase, n, h.cap);
    }
  }

  lemma GrowNewHeader(ix: Index, garbage: seq<Option<BlockId>>)
    requires Inv(ix) && MustGrow(ix) && |garbage| == ix.Cur().cap && Shape(Grow(ix, garbage))
    ensures HeaderOk(Grow(ix, garbage), Grow(ix, garbage).Cur())
    ensures ix.entries[ix.Cur().slots[ix.Cur().tail]].key.Some?
  {
    hide Slot, Congruent, ValuesOk, HeadersOk;
    var ix', h := Grow(ix, garbage), ix.Cur();
    var h' := ix'.Cur();
    GrowsWhenFull(ix);
    assert HeaderShape(ix, h) && HeaderShape(ix', h');
    assert ix.entries[Ent(h, ix.next - 1)].key == Some(ix.next - 1);
    forall p | 0 <= p < h'.cap ensures KeyOk(ix', h', p) {
      if p < h.cap {
        RotatedIs(ix, p);
        assert ix.entries[Ent(h, ix.lo + p)].key == Some(ix.lo + p);
        Reflexive(ix.lo + p, h'.cap);
      }
    }
    forall p, q | 0 <= p < h'.cap && 0 <= q < h'.cap ensures SharedOk(ix', h', p, q) {
      Reflexive(p + h'.phase, h'.cap);
    }
  }

  lemma GrowWindow(ix: Index, garbage: seq<Option<BlockId>>)
    requires Inv(ix) && MustGrow(ix) && |garbage| == ix.Cur().cap && Shape(Grow(ix, garbage))
    ensures WindowOk(Grow(ix, garbage)) && ValuesOk(Grow(ix, garbage))
  {
    hide Slot, HeadersOk, Divides;
    var ix', h := Grow(ix, garbage), ix.Cur();
    GrowsWhenFull(ix);
    assert HeaderShape(ix, h);
    GrownSlot(ix, garbage, ix.next - 1);
    forall n | ix.lo <= n < ix.hi
      ensures ix'.entries[Ent(ix'.Cur(), n)].key == Some(n) && ValueOk(ix', n)
    {
      GrownEnt(ix, garbage, n);
      assert ValueOk(ix, n);
    }
    forall p | 0 <= p < ix'.Cur().cap ensures InWindow(ix', ix'.entries[ix'.Cur().slots[p]].key) {
      if p < h.cap {
        RotatedIs(ix, p);
      }
    }
  }

  lemma GrowKeeps(ix: Index, garbage: seq<Option<BlockId>>)
    requires Inv(ix) && MustGrow(ix) && |garbage| == ix.Cur().cap
    ensures Inv(Grow(ix, garbage))
  {
    hide HeaderOk, HeaderShape, Divides, WindowOk, ValuesOk;
    GrowShape(ix, garbage);
    GrowWindow(ix, garbage);
    GrowNewHeader(ix, garbage);
    var ix' := Grow(ix, garbage);
    forall g | 0 <= g < |ix'.headers| ensures HeaderOk(ix', ix'.headers[g]) {
      if g < |ix.headers| {
        GrowOldHeader(ix, garbage, g);
      }
    }
    GrowFrozen(ix, garbage);
  }

  lemma GrowFrozen(ix: Index, garbage: seq<Option<BlockId>>)
    requires Inv(ix) && |garbage| == ix.Cur().cap && Shape(Grow(ix, garbage))
    requires ix.entries[ix.Cur().slots[ix.Cur().tail]].key.Some?
    ensures
      var ix' := Grow(ix, garbage);
      forall g :: 0 <= g < |ix'.headers| - 1 ==> ix'.entries[ix'.headers[g].slots[ix'.headers[g].tail]].key.Some?
  {
    hide HeaderOk, Divides, WindowOk, ValuesOk, Rotated;
    var ix' := Grow(ix, garbage);
    forall g | 0 <= g < |ix'.headers| - 1
      ensures ix'.entries[ix'.headers[g].slots[ix'.headers[g].tail]].key.Some?
    {
      assert ix'.headers[g] == ix.headers[g] && HeaderShape(ix, ix.headers[g]);
    }
  }

  lemma InitHasInv(ix: Index)
    requires InitIndex(ix)
    ensures Inv(ix)
  {
    DividesItself(INDEX_SIZE);
    Reflexive(-1, INDEX_SIZE);
    var h := ix.Cur();
    OneTurn(INDEX_SIZE - 1, INDEX_SIZE);
    SlotIs(h, -1, INDEX_SIZE - 1);
    assert HeaderShape(ix, h);
    forall p, q | 0 <= p < h.cap && 0 <= q < h.cap ensures SharedOk(ix, h, p, q) {
      Reflexive(p + h.phase, h.cap);
    }
  }

  // ---------------------------------------------------------------- lookup

  /** Header h has the entry that block n uses. */
  ghost predicate Has(ix: Index, h: Header, n: nat)
    requires Shape(ix)
  {
    h.cap > 0 && |h.slots| == h.cap && Ent(h, n) == Ent(ix.Cur(), n)
  }

  /** get_block_index_index_for_index, for block n, the tail slot `tail` of h and the key k read there. */
  function LookUp(h: Header, tail: nat, k: nat, n: nat): nat
    requires h.cap > 0
  {
    (tail + (n - k)) % h.cap
  }

  /**
    Whatever header a reader holds, whatever tail it read there and whatever key it then found in the tail slot, even
    if that slot was given to a later block in between: the lookup of block n ends in the slot of block n.
  */
  lemma LookUpFindsSlot(ix: Index, g: nat, tail: nat, k: nat, n: nat)
    requires Inv(ix) && g < |ix.headers| && tail < ix.headers[g].cap
    requires ix.entries[ix.headers[g].slots[tail]].key == Some(k)
    ensures LookUp(ix.headers[g], tail, k, n) == Slot(ix.headers[g], n)
  {
    hide Slot, Congruent, WindowOk, ValuesOk, Divides;
    var h := ix.headers[g];
    assert HeaderOk(ix, h) && KeyOk(ix, h, tail);
    var p := LookUp(h, tail, k, n);
    Remainder(tail + (n - k), h.cap);
    Shift(p, tail + (n - k), h.phase, h.cap);
    Shift(k, tail + h.phase, n - k, h.cap);
    Symmetric(n, tail + h.phase + (n - k), h.cap);
    Transitive(p + h.phase, tail + h.phase + (n - k), n, h.cap);
    SlotIs(h, n, p);
  }

  /** The asserts at lines 2853 and 2858: that slot holds the key and the memory of block n as long as n is alive. */
  lemma LookUpFindsBlock(ix: Index, g: nat, tail: nat, k: nat, n: nat)
    requires Inv(ix) && g < |ix.headers| && tail < ix.headers[g].cap
    requires ix.entries[ix.headers[g].slots[tail]].key == Some(k)
    requires n in ix.live && Has(ix, ix.headers[g], n)
    ensures
      ix.entries[ix.headers[g].slots[LookUp(ix.headers[g], tail, k, n)]] == Entry(Some(n), Some(ix.live[n]))
  {
    hide Slot, HeadersOk, Divides, HeaderShape;
    LookUpFindsSlot(ix, g, tail, k, n);
    assert ValueOk(ix, n);
  }

  /** The slot after block n's belongs to block n + 1, in every header. */
  lemma NextSlot(h: Header, n: nat)
    requires h.cap > 0
    ensures (Slot(h, n) + 1) % h.cap == Slot(h, n + 1)
  {
    SlotMoves(h, n, 1);
  }

  // ---------------------------------------------------------------- what a reader may rely on

  predicate SameButTail(h: Header, h': Header) {
    h'.cap == h.cap && h'.slots == h.slots && h'.phase == h.phase && h'.tail < h'.cap
  }

  /** From ix to ix' no header that a reader may hold changed but for its tail, and no key was taken back. */
  ghost predicate Steady(ix: Index, ix': Index) {
    && Shape(ix) && Shape(ix')
    && |ix.headers| <= |ix'.headers| && |ix.entries| <= |ix'.entries|
    && (forall g :: 0 <= g < |ix.headers| ==> SameButTail(ix.headers[g], ix'.headers[g]))
    && (forall e :: 0 <= e < |ix.entries| && ix.entries[e].key.Some? ==> ix'.entries[e].key.Some?)
    && (forall n :: n in ix.live ==> EntKept(ix, ix', n))
  }

  ghost predicate EntKept(ix: Index, ix': Index, n: nat)
    requires Shape(ix) && Shape(ix')
  {
    Ent(ix'.Cur(), n) == Ent(ix.Cur(), n)
  }

  lemma HasKept(ix: Index, ix': Index, g: nat, n: nat)
    requires Steady(ix, ix') && g < |ix.headers| && n in ix.live && Has(ix, ix.headers[g], n)
    ensures Has(ix', ix'.headers[g], n)
  {
    hide HeaderShape, Divides;
    assert SameButTail(ix.headers[g], ix'.headers[g]) && EntKept(ix, ix', n);
  }

  lemma StoreKeyIsSteady(ix: Index)
    requires Inv(ix)
    ensures Steady(ix, StoreKey(ix))
  {
    hide HeadersOk, WindowOk, ValuesOk, Slot;
    StoreKeyShape(ix);
    assert forall g :: 0 <= g < |ix.headers| ==> HeaderShape(ix, ix.headers[g]);
  }

  lemma SetTailIsSteady(ix: Index, tail: nat, next: nat)
    requires Inv(ix) && tail < ix.Cur().cap
    ensures Steady(ix, SetTail(ix, tail, next))
  {
    hide HeaderOk, WindowOk, ValuesOk;
    SetTailHeaders(ix, tail, next);
    var ix' := SetTail(ix, tail, next);
    forall g | 0 <= g < |ix.headers| ensures SameButTail(ix.headers[g], ix'.headers[g]) {
      assert HeaderShape(ix', ix'.headers[g]);
    }
  }

  lemma ValueIsSteady(ix: Index, ix': Index)
    requires Inv(ix)
    requires ix'.headers == ix.headers && |ix'.entries| == |ix.entries|
    requires forall e :: 0 <= e < |ix.entries| ==> ix'.entries[e].key == ix.entries[e].key
    ensures Steady(ix, ix')
  {
    hide HeadersOk, WindowOk, ValuesOk;
    assert ix'.Cur() == ix.Cur();
    forall g | 0 <= g < |ix.headers| ensures HeaderShape(ix', ix'.headers[g]) {
      assert HeaderShape(ix, ix.headers[g]);
    }
  }

  lemma GrowIsSteady(ix: Index, garbage: seq<Option<BlockId>>)
    requires Inv(ix) && MustGrow(ix) && |garbage| == ix.Cur().cap
    ensures Steady(ix, Grow(ix, garbage))
  {
    hide HeadersOk, Slot, InWindow;
    GrowShape(ix, garbage);
    GrowsWhenFull(ix);
    var ix' := Grow(ix, garbage);
    forall n | n in ix.live ensures EntKept(ix, ix', n) {
      GrownEnt(ix, garbage, n);
    }
    forall g | 0 <= g < |ix.headers| ensures SameButTail(ix.headers[g], ix'.headers[g]) {
      assert HeaderShape(ix, ix.headers[g]);
    }
  }
}
