/**
  The producer's own operations on its block index, as the code carries them out on arrays
  (source/utils/concurrentqueue.h:2804-2904). The ghost field `ix` is the index as concurrent readers see it; each
  operation is proved to move it by steps of BlockIndex. Entries are numbered in the order they are made; a pointer to
  one is its number.
*/
module IndexArrays {
  import opened Wrappers
  import Circular
  import X = BlockIndex

  lemma StepForward(p: nat, c: nat)
    requires p < c
    ensures (p + 1) % c == if p + 1 == c then 0 else p + 1
  {
    Circular.Reflexive(p + 1, c);
    if p + 1 == c {
      Circular.OneTurn(c, c);
      Circular.Symmetric(c, 0, c);
      Circular.RemainderIs(c, 0, c);
    } else {
      Circular.RemainderIs(p + 1, p + 1, c);
    }
  }

  lemma StepBack(p: nat, c: nat)
    requires p < c
    ensures (p - 1) % c == if p == 0 then c - 1 else p - 1
  {
    if p == 0 {
      Circular.OneTurn(c - 1, c);
      Circular.RemainderIs(-1, c - 1, c);
    } else {
      Circular.Reflexive(p - 1, c);
      Circular.RemainderIs(p - 1, p - 1, c);
    }
  }

  /** Where the copy loop stands after i steps from the tail. */
  function Position(tail: nat, i: nat, c: nat): nat
    requires tail < c && i <= c
  {
    if tail + i < c then tail + i else tail + i - c
  }

  lemma PositionIs(tail: nat, i: nat, c: nat)
    requires tail < c && i < c
    ensures (tail + 1 + i) % c == Position(tail, i + 1, c)
  {
    var p := Position(tail, i + 1, c);
    Circular.Reflexive(p, c);
    Circular.OneTurn(p + c, c);
    Circular.Symmetric(p + c, p, c);
    Circular.RemainderIs(tail + 1 + i, p, c);
  }

  /** Entries without a key, with whatever memory held for a value. */
  function NewEntries(garbage: seq<Option<X.BlockId>>): (added: seq<X.Entry>)
    ensures |added| == |garbage|
  {
    seq(|garbage|, i requires 0 <= i < |garbage| => X.Entry(None, garbage[i]))
  }

  /** Storing a key in an entry. */
  function Keyed(entries: seq<X.Entry>, e: X.EntryId, key: nat): (entries': seq<X.Entry>)
    requires e < |entries|
    ensures |entries'| == |entries|
  {
    entries[e := entries[e].(key := Some(key))]
  }

  /** The arrays hold what readers of the current header see. */
  ghost predicate Shows(ix: X.Index, capacity: nat, tail: nat, slots: seq<X.EntryId>, entries: seq<X.Entry>) {
    && X.Inv(ix) && |ix.headers| > 0 && ix.entries == entries && |slots| == capacity == |entries| && tail < capacity
    && ix.Cur() == X.Header(capacity, tail, slots, ix.Cur().phase)
    && forall p :: 0 <= p < capacity ==> slots[p] < capacity
  }

  lemma ShowsIf(ix: X.Index, capacity: nat, tail: nat, slots: seq<X.EntryId>, entries: seq<X.Entry>)
    requires X.Inv(ix) && |ix.headers| > 0 && ix.entries == entries
    requires ix.Cur() == X.Header(capacity, tail, slots, ix.Cur().phase)
    ensures Shows(ix, capacity, tail, slots, entries)
  {
    hide X.HeadersOk, X.WindowOk, X.ValuesOk;
    assert X.HeaderShape(ix, ix.Cur());
  }

  lemma ShowsShape(ix: X.Index, capacity: nat, tail: nat, slots: seq<X.EntryId>, entries: seq<X.Entry>)
    requires Shows(ix, capacity, tail, slots, entries)
    ensures X.Shape(ix) && X.NewTail(ix.Cur()) == (tail + 1) % capacity
  {
    hide X.HeadersOk, X.WindowOk, X.ValuesOk, X.HeaderShape, X.Divides;
  }

  /** BlockIndexHeader with the entries it points to. */
  class Header {
    var capacity: nat
    var tail: nat
    var index: array<X.EntryId>
    var entries: seq<X.Entry>
    var nextCapacity: nat
    ghost var ix: X.Index

    ghost predicate Valid()
      reads this, index
    {
      nextCapacity == 2 * capacity && index.Length == capacity && Shows(ix, capacity, tail, index[..], entries)
    }

    /** The constructor's new_block_index. */
    constructor (garbage: seq<Option<X.BlockId>>)
      requires |garbage| == X.INDEX_SIZE
      ensures Valid() && fresh(index) && X.InitIndex(ix)
    {
      capacity := X.INDEX_SIZE;
      tail := X.INDEX_SIZE - 1;
      nextCapacity := 2 * X.INDEX_SIZE;
      index := new X.EntryId[X.INDEX_SIZE];
      entries := [];
      new;
      var i := 0;
      while i != capacity
        modifies this`entries, index
        invariant 0 <= i <= capacity == index.Length == X.INDEX_SIZE && |entries| == i && fresh(index)
        invariant forall e :: 0 <= e < i ==> entries[e].key == None && index[e] == e
        invariant tail == X.INDEX_SIZE - 1 && nextCapacity == 2 * X.INDEX_SIZE
      {
        entries := entries + [X.Entry(None, garbage[i])];
        index[i] := i;
        i := i + 1;
      }
      assert index[..] == seq(X.INDEX_SIZE, i => i);
      ix := X.Index([X.Header(capacity, tail, index[..], 0)], entries, 0, 0, 0, map[], None);
      X.InitHasInv(ix);
      hide X.Inv;
      ShowsIf(ix, capacity, tail, index[..], entries);
    }

    /** The copy loop and the new entries of new_block_index, on the arrays. */
    method CopyIndex(garbage: seq<Option<X.BlockId>>) returns (added: array<X.EntryId>)
      requires index.Length == capacity == |entries| && tail < capacity && nextCapacity == 2 * capacity
      requires forall p :: 0 <= p < capacity ==> index[p] < capacity
      requires |garbage| == capacity
      modifies this`entries
      ensures fresh(added) && entries == old(entries) + NewEntries(garbage)
      ensures added[..] == X.Rotated(X.Header(capacity, tail, index[..], 0))
    {
      var prevCapacity, prevTail := capacity, tail;
      added := new X.EntryId[nextCapacity];
      var i, prevPos := 0, prevTail;
      StepForward(prevPos, prevCapacity);
      prevPos := (prevPos + 1) % prevCapacity;
      added[0] := index[prevPos];
      i := 1;
      while prevPos != prevTail
        modifies added
        invariant 1 <= i <= prevCapacity && prevPos == Position(prevTail, i, prevCapacity)
        invariant forall k :: 0 <= k < i ==> added[k] == index[Position(prevTail, k + 1, prevCapacity)]
        decreases prevCapacity - i
      {
        StepForward(prevPos, prevCapacity);
        prevPos := (prevPos + 1) % prevCapacity;
        added[i] := index[prevPos];
        i := i + 1;
      }
      assert i == prevCapacity;
      var j := 0;
      while j != prevCapacity
        modifies this`entries, added
        invariant 0 <= j <= prevCapacity
        invariant entries == old(entries) + NewEntries(garbage)[..j]
        invariant forall k :: 0 <= k < prevCapacity ==> added[k] == index[Position(prevTail, k + 1, prevCapacity)]
        invariant forall k :: prevCapacity <= k < prevCapacity + j ==> added[k] == k
      {
        entries := entries + [X.Entry(None, garbage[j])];
        added[prevCapacity + j] := prevCapacity + j;
        j := j + 1;
      }
      CopiedIsRotated(added[..], index[..], prevTail, prevCapacity);
      assert NewEntries(garbage)[..j] == NewEntries(garbage);
    }

    /** new_block_index, called when the slot of the next block is taken: the index grows as BlockIndex says. */
    method NewBlockIndex(garbage: seq<Option<X.BlockId>>)
      requires Valid() && X.Shape(ix) && X.MustGrow(ix) && |garbage| == capacity
      modifies this
      ensures Valid() && fresh(index) && X.Shape(old(ix)) && ix == X.Grow(old(ix), garbage)
      ensures capacity == 2 * old(capacity) && tail == old(capacity) - 1 && entries == old(entries) + NewEntries(garbage)
      ensures index[old(capacity)] == old(capacity)
    {
      hide X.Inv, X.Shape, X.MustGrow, X.Rotated;
      X.GrowKeeps(ix, garbage);
      GrownFields(ix, garbage);
      RotatedSlots(X.Header(capacity, tail, index[..], 0), X.Header(capacity, tail, index[..], ix.Cur().phase));
      var added := CopyIndex(garbage);
      index := added;
      tail := capacity - 1;
      capacity := nextCapacity;
      nextCapacity := 2 * capacity;
      ix := X.Grow(ix, garbage);
      ShowsIf(ix, capacity, tail, index[..], entries);
    }

    /** rewind_block_index_tail */
    method RewindTail()
      requires Valid() && ix.lo < ix.next && X.Shape(ix)
      modifies this`tail, this`ix
      ensures Valid() && X.Shape(old(ix)) && old(ix).next > 0 && ix == X.Rewind(old(ix))
    {
      hide X.Inv, X.Shape;
      X.RewindKeeps(ix);
      StepBack(tail, capacity);
      tail := if tail == 0 then capacity - 1 else tail - 1;
      ix := X.Rewind(ix);
      ShowsIf(ix, capacity, tail, index[..], entries);
    }

    /**
      get_block_index_index_for_index for block n; None where its first assert fails, which it does not once a block is
      in the index. The result is the slot of block n, which for a block with memory has its key and its memory.
    */
    method LookUp(n: nat) returns (slot: Option<nat>)
      requires Valid()
      ensures slot.None? <==> entries[index[tail]].key == None
      ensures ix.lo < ix.next ==> slot.Some?
      ensures slot.Some? ==> slot.value < capacity && Circular.Congruent(slot.value + ix.Cur().phase, n, capacity)
      ensures slot.Some? && n in ix.live ==> entries[index[slot.value]] == X.Entry(Some(n), Some(ix.live[n]))
    {
      hide X.Inv, X.LookUp, X.Slot;
      TailKeyThere(ix);
      match entries[index[tail]].key {
        case None => slot := None;
        case Some(k) =>
          slot := Some((tail + (n - k)) % capacity);
          FoundSlot(ix, k, n);
      }
    }

    /** The two stores with which insert_block_index_entry ends. */
    method StoreEntry(key: nat) returns (e: X.EntryId)
      requires Valid() && key == ix.next && X.Shape(ix) && X.CanStoreKey(ix)
      modifies this`entries, this`tail, this`ix
      ensures Valid() && X.Shape(old(ix)) && X.Shape(X.StoreKey(old(ix))) && ix == X.StoreTail(X.StoreKey(old(ix)))
      ensures e == index[tail] < |entries| && entries[e].key == Some(key)
      ensures ix.next == key + 1 && ix.raw == Some(key) && ix.live == old(ix.live)
    {
      hide X.Inv, X.Shape, X.CanStoreKey, X.StoreKey, X.StoreTail;
      ShowsShape(ix, capacity, tail, index[..], entries);
      StepForward(tail, capacity);
      InsertIsTwoStores(ix);
      var newTail := (tail + 1) % capacity;
      e := index[newTail];
      entries := Keyed(entries, e, key);
      tail := newTail;
      ix := X.StoreTail(X.StoreKey(ix));
      ShowsIf(ix, capacity, tail, index[..], entries);
    }

    /**
      insert_block_index_entry for the next block; garbage is None when a larger index cannot be allocated. Readers see
      the key stored and then the tail moved, after a larger index if the slot is taken, or nothing at all.
    */
    method InsertEntry(key: nat, garbage: Option<seq<Option<X.BlockId>>>) returns (entry: Option<X.EntryId>)
      requires Valid() && key == ix.next && ix.raw == None && forall n :: n in ix.live ==> n < ix.next
      requires garbage.Some? ==> |garbage.value| == capacity
      modifies this
      ensures Valid() && ix.live == old(ix.live)
      ensures X.Shape(old(ix))
      ensures var taken := X.MustGrow(old(ix));
              && (!taken ==> X.Shape(X.StoreKey(old(ix))) && ix == X.StoreTail(X.StoreKey(old(ix))) && index == old(index))
              && (taken && garbage.Some? ==>
                    && X.Shape(X.Grow(old(ix), garbage.value)) && X.Shape(X.StoreKey(X.Grow(old(ix), garbage.value)))
                    && ix == X.StoreTail(X.StoreKey(X.Grow(old(ix), garbage.value))))
              && (taken && garbage.None? ==> ix == old(ix) && index == old(index))
              && (entry.None? <==> taken && garbage.None?)
      ensures entry.Some? ==> entry.value == index[tail] < |entries| && entries[entry.value].key == Some(key)
      ensures entry.Some? ==> ix.next == key + 1 && ix.raw == Some(key)
    {
      hide X.Inv, X.Shape, X.MustGrow, X.CanStoreKey, X.StoreKey, X.StoreTail, X.Grow;
      ShowsShape(ix, capacity, tail, index[..], entries);
      TakenIs(ix);
      if !X.SlotFree(entries[index[(tail + 1) % capacity]]) {
        if garbage.None? {
          return None;
        }
        NewBlockIndex(garbage.value);
        GrownIsFree(old(ix), garbage.value);
      }
      var e := StoreEntry(key);
      return Some(e);
    }
  }

  lemma RotatedSlots(g: X.Header, h: X.Header)
    requires g.cap == h.cap > 0 && g.tail == h.tail && g.slots == h.slots && |h.slots| == h.cap
    ensures X.Rotated(g) == X.Rotated(h)
  {
  }

  lemma CopiedIsRotated(added: seq<X.EntryId>, slots: seq<X.EntryId>, tail: nat, c: nat)
    requires c > 0 && tail < c && |slots| == c && |added| == 2 * c
    requires forall k :: 0 <= k < c ==> added[k] == slots[Position(tail, k + 1, c)]
    requires forall k :: c <= k < 2 * c ==> added[k] == k
    ensures added == X.Rotated(X.Header(c, tail, slots, 0))
  {
    forall k | 0 <= k < 2 * c ensures added[k] == X.Rotated(X.Header(c, tail, slots, 0))[k] {
      if k < c {
        PositionIs(tail, k, c);
      }
    }
  }

  // ---------------------------------------------------------------- against the steps of the block index

  /** The slot after the tail is free, or the index must grow. */
  lemma TakenIs(ix: X.Index)
    requires X.Inv(ix) && ix.raw == None && forall n :: n in ix.live ==> n < ix.next
    ensures X.Shape(ix)
    ensures X.NewTail(ix.Cur()) < |ix.Cur().slots| && ix.Cur().slots[X.NewTail(ix.Cur())] < |ix.entries|
    ensures X.SlotFree(ix.entries[ix.Cur().slots[X.NewTail(ix.Cur())]]) <==> !X.MustGrow(ix)
    ensures !X.MustGrow(ix) <==> X.CanStoreKey(ix)
  {
    hide X.HeadersOk, X.WindowOk, X.ValuesOk;
    assert X.HeaderShape(ix, ix.Cur());
  }

  /** Once grown the index has a free slot: the assert at line 2825. */
  lemma GrownIsFree(ix: X.Index, garbage: seq<Option<X.BlockId>>)
    requires X.Inv(ix) && X.MustGrow(ix) && |garbage| == ix.Cur().cap
    ensures X.Inv(X.Grow(ix, garbage)) && X.Shape(X.Grow(ix, garbage)) && X.CanStoreKey(X.Grow(ix, garbage))
    ensures X.Grow(ix, garbage).next == ix.next && X.Grow(ix, garbage).live == ix.live
  {
    hide X.HeadersOk, X.WindowOk, X.ValuesOk, X.SlotFree;
    X.GrowKeeps(ix, garbage);
    GrownFields(ix, garbage);
    StepForward(ix.Cur().cap - 1, 2 * ix.Cur().cap);
    assert X.HeaderShape(ix, ix.Cur());
    NewIsFree(garbage, 0, ix.entries);
  }

  lemma NewIsFree(garbage: seq<Option<X.BlockId>>, j: nat, entries: seq<X.Entry>)
    requires j < |garbage|
    ensures X.SlotFree((entries + NewEntries(garbage))[|entries| + j])
  {
  }

  /** Inserting is storing the key of the next block and then the tail; the invariant of the index is kept throughout. */
  lemma InsertIsTwoStores(ix: X.Index)
    requires X.Inv(ix) && X.Shape(ix) && X.CanStoreKey(ix)
    ensures X.Inv(X.StoreKey(ix)) && X.Shape(X.StoreKey(ix)) && X.Inv(X.StoreTail(X.StoreKey(ix)))
    ensures
      var ix', h := X.StoreTail(X.StoreKey(ix)), ix.Cur();
      && X.NewTail(h) < |h.slots| && h.slots[X.NewTail(h)] < |ix.entries|
      && |ix'.headers| > 0 && ix'.Cur() == h.(tail := X.NewTail(h))
      && ix'.entries == Keyed(ix.entries, h.slots[X.NewTail(h)], ix.next)
      && ix'.next == ix.next + 1 && ix'.raw == Some(ix.next) && ix'.live == ix.live
  {
    hide X.HeadersOk, X.WindowOk, X.ValuesOk;
    X.StoreKeyShape(ix);
    X.StoreKeyKeeps(ix);
    X.StoreTailKeeps(X.StoreKey(ix));
    assert X.HeaderShape(ix, ix.Cur());
  }

  lemma GrownFields(ix: X.Index, garbage: seq<Option<X.BlockId>>)
    requires X.Shape(ix) && |garbage| == ix.Cur().cap
    ensures
      var g, h := X.Grow(ix, garbage), ix.Cur();
      && |g.headers| > 0 && |h.slots| == h.cap == |ix.entries| && |g.Cur().slots| == 2 * h.cap && h.cap > 0
      && g.Cur().cap == 2 * h.cap && g.Cur().tail == h.cap - 1 && g.next == ix.next && g.raw == ix.raw && g.live == ix.live
      && g.Cur().slots == X.Rotated(h) && g.Cur().slots[h.cap] == h.cap
      && g.entries == ix.entries + NewEntries(garbage)
  {
    assert X.HeaderShape(ix, ix.Cur());
  }

  lemma TailKeyThere(ix: X.Index)
    requires X.Inv(ix)
    ensures X.Shape(ix) && X.HeaderShape(ix, ix.Cur())
    ensures ix.lo < ix.next ==> ix.entries[ix.Cur().slots[ix.Cur().tail]].key.Some?
  {
    hide X.HeadersOk, X.ValuesOk, X.Slot, X.InWindow;
    assert X.HeaderShape(ix, ix.Cur());
    if ix.lo < ix.next {
      assert ix.entries[X.Ent(ix.Cur(), ix.next - 1)].key == Some(ix.next - 1);
    }
  }

  lemma FoundSlot(ix: X.Index, k: nat, n: nat)
    requires X.Inv(ix) && X.Shape(ix) && X.HeaderShape(ix, ix.Cur())
    requires ix.entries[ix.Cur().slots[ix.Cur().tail]].key == Some(k)
    ensures
      var slot := (ix.Cur().tail + (n - k)) % ix.Cur().cap;
      && slot < ix.Cur().cap && Circular.Congruent(slot + ix.Cur().phase, n, ix.Cur().cap)
      && (n in ix.live ==> ix.entries[ix.Cur().slots[slot]] == X.Entry(Some(n), Some(ix.live[n])))
  {
    hide X.Inv, X.Slot, Circular.Congruent;
    X.LookUpFindsSlot(ix, |ix.headers| - 1, ix.Cur().tail, k, n);
    X.SlotCongruent(ix.Cur(), n);
    if n in ix.live {
      X.LookUpFindsBlock(ix, |ix.headers| - 1, ix.Cur().tail, k, n);
    }
  }
}
