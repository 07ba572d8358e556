/**
  ObjectPool: cells are made in caches, handed out and taken back (source/utils/ObjectPool.h:19-150).

  A cell is the index-th item of a cache. `held` is auxiliary: the cells that clients have. `memory` is how many
  items can still be allocated; the sizes are words, and no more items than there are words can exist.
*/
module ObjectPool {
  import opened Wrappers
  import opened Words
  import opened Totals

  datatype Cell = Cell(cache: nat, index: nat)

  /** What create gives: an item, null, or an exception from operator new. */
  datatype Outcome = Item(cell: Cell) | Null | Throws

  datatype Growth = Grown | Refused | NoMemory

  predicate IsCell(caches: seq<nat>, c: Cell) {
    c.cache < |caches| && c.index < caches[c.cache]
  }

  /** The item i places after the first. */
  function Nth(first: Cell, i: nat): Cell {
    Cell(first.cache, first.index + i)
  }

  predicate Distinct(cells: seq<Cell>) {
    forall i, j :: 0 <= i < j < |cells| ==> cells[i] != cells[j]
  }

  /** Every cell of every cache is either free, once, or held. */
  ghost predicate Partition(caches: seq<nat>, free: seq<Cell>, held: set<Cell>) {
    && Distinct(free)
    && (forall c :: c in free || c in held <==> IsCell(caches, c))
    && (forall c :: c in held ==> c !in free)
  }

  // ---------------------------------------------------------------- counting cells

  ghost function Elements(cells: seq<Cell>): set<Cell> {
    set c | c in cells
  }

  lemma {:induction false} DistinctCount(cells: seq<Cell>)
    requires Distinct(cells)
    ensures |Elements(cells)| == |cells|
  {
    if cells != [] {
      var n := |cells| - 1;
      DistinctCount(cells[..n]);
      assert Elements(cells) == Elements(cells[..n]) + {cells[n]};
    }
  }

  ghost function CellsOf(cache: nat, count: nat): (cells: set<Cell>)
    ensures forall c :: c in cells <==> c.cache == cache && c.index < count
    ensures |cells| == count
  {
    if count == 0 then {} else CellsOf(cache, count - 1) + {Cell(cache, count - 1)}
  }

  ghost function AllCells(caches: seq<nat>): (cells: set<Cell>)
    ensures forall c :: c in cells <==> IsCell(caches, c)
    ensures |cells| == Total(caches)
  {
    if caches == [] then {} else
      var n := |caches| - 1;
      var before, last := AllCells(caches[..n]), CellsOf(n, caches[n]);
      assert before !! last;
      before + last
  }

  /** In a partition free and held cells together are all cells, counted once each. */
  lemma PartitionCount(caches: seq<nat>, free: seq<Cell>, held: set<Cell>)
    requires Partition(caches, free, held)
    ensures |free| + |held| == Total(caches)
  {
    DistinctCount(free);
    assert Elements(free) !! held;
    assert Elements(free) + held == AllCells(caches);
  }

  /** The cells of one cache in the order they are pushed: last to first. */
  function Pushed(cache: nat, count: nat, n: nat): (cells: seq<Cell>)
    requires n <= count
    ensures |cells| == n
  {
    seq(n, i requires 0 <= i < n => Cell(cache, count - 1 - i))
  }

  lemma PushedNext(cache: nat, count: nat, n: nat)
    requires n < count
    ensures Pushed(cache, count, n + 1) == Pushed(cache, count, n) + [Cell(cache, count - 1 - n)]
  {
  }

  lemma PushedIs(cache: nat, count: nat)
    ensures Distinct(Pushed(cache, count, count))
    ensures forall c :: c in Pushed(cache, count, count) <==> c.cache == cache && c.index < count
  {
    var cells := Pushed(cache, count, count);
    forall c: Cell | c.cache == cache && c.index < count ensures c in cells {
      assert cells[count - 1 - c.index] == c;
    }
  }

  lemma PushedLast(cache: nat, count: nat)
    ensures count > 0 ==> Pushed(cache, count, count)[count - 1] == Cell(cache, 0)
  {
  }

  lemma LastIsFree(caches: seq<nat>, free: seq<Cell>, held: set<Cell>)
    requires Partition(caches, free, held) && free != []
    ensures free[|free| - 1] !in held && IsCell(caches, free[|free| - 1])
  {
    assert free[|free| - 1] in free;
  }

  /** A new cache adds its cells to the free ones. */
  lemma PartitionGrows(caches: seq<nat>, free: seq<Cell>, held: set<Cell>, count: nat)
    requires Partition(caches, free, held)
    ensures Partition(caches + [count], free + Pushed(|caches|, count, count), held)
  {
    hide Pushed;
    PushedIs(|caches|, count);
    var added := Pushed(|caches|, count, count);
    forall i, j | 0 <= i < j < |free + added| ensures (free + added)[i] != (free + added)[j] {
      assert i < |free| ==> free[i] in free && IsCell(caches, free[i]);
      assert j >= |free| ==> added[j - |free|] in added;
    }
    forall c ensures c in free + added || c in held <==> IsCell(caches + [count], c) {
      assert c in free || c in held <==> IsCell(caches, c);
    }
  }

  lemma PartitionMoves(caches: seq<nat>, free: seq<Cell>, held: set<Cell>, c: Cell)
    ensures Partition(caches, free, held) && c in held ==> Partition(caches, free + [c], held - {c})
    ensures free != [] && Partition(caches, free, held) ==> Partition(caches, free[..|free| - 1], held + {free[|free| - 1]})
  {
    if free != [] {
      var n := |free| - 1;
      assert free == free[..n] + [free[n]];
    }
  }

  /** What resize allocates: the count asked for, or as much as maxItems leaves; the sum is taken modulo the word. */
  function Clamped(curr: nat, count: nat, most: nat): nat
    requires curr <= most
  {
    if Wrap(curr + count) > most then most - curr else count
  }

  lemma EmptyPartition()
    ensures Partition([], [], {}) && Total([]) == 0
  {
  }

  /** When an allocation of that many is tried, and what it is when there is memory for it. */
  lemma ClampedIs(curr: nat, count: nat, most: nat, memory: nat)
    requires curr <= most < WORD && count < WORD && curr + memory < WORD
    ensures
      var n := Clamped(curr, count, most);
      && (n > 0 && Wrap(curr + n) <= most && n <= memory ==>
            n == (if curr + count > most then most - curr else count) && curr + n <= most)
      && (!(n > 0 && Wrap(curr + n) <= most) <==> count == 0 || (curr == most && most + count < WORD))
  {
    var n := Clamped(curr, count, most);
    WrapOnce(curr + count);
    WrapOnce(curr + n);
    ClampIsExact(curr, count, most);
    if curr + count >= WORD {
      assert Wrap(curr + count) == curr + count - WORD;
    }
  }

  class Pool {
    var free: seq<Cell>
    var caches: seq<nat>
    var maxItems: nat
    var currItems: nat
    var increaseStep: nat
    var allocationCount: nat
    ghost var held: set<Cell>

    ghost predicate Sized()
      reads this
    {
      currItems == Total(caches) <= maxItems < WORD && increaseStep < WORD && allocationCount == |caches|
    }

    ghost predicate Valid()
      reads this
    {
      Sized() && Partition(caches, free, held)
    }

    /** The constructor, when its memory can be had. */
    constructor (initialCapacity: nat, most: nat, step: nat, memory: nat)
      requires initialCapacity < WORD && most < WORD && step < WORD && memory < WORD
      requires initialCapacity <= memory || most <= memory
      ensures Valid() && held == {} && maxItems == most
      ensures increaseStep == if step == 0 then initialCapacity / 2 else step
      ensures currItems == |free| == if initialCapacity > most then most else initialCapacity
    {
      free, caches := [], [];
      maxItems, currItems, allocationCount := most, 0, 0;
      increaseStep := if step == 0 then initialCapacity / 2 else step;
      held := {};
      new;
      hide Partition, Distinct, Pushed, Wrap, Clamped, Total;
      EmptyPartition();
      var growth := Resize(initialCapacity, memory);
      ClampedIs(0, initialCapacity, most, memory);
      PartitionCount(caches, free, held);
    }

    /** resize: a new cache of `count` cells, clamped to the limit; an allocation beyond the memory there is throws. */
    method Resize(count: nat, memory: nat) returns (growth: Growth)
      requires Valid() && count < WORD && currItems + memory < WORD
      modifies this
      ensures Valid() && held == old(held) && maxItems == old(maxItems) && increaseStep == old(increaseStep)
      ensures growth.Grown? ==>
                var added := if old(currItems) + count > maxItems then maxItems - old(currItems) else count;
                && added > 0 && currItems == old(currItems) + added && caches == old(caches) + [added]
                && free == old(free) + Pushed(|old(caches)|, added, added)
      ensures !growth.Grown? ==> free == old(free) && caches == old(caches) && currItems == old(currItems)
      ensures growth.Refused? <==> count == 0 || (old(currItems) == maxItems && maxItems + count < WORD)
      ensures growth.NoMemory? ==> Clamped(old(currItems), count, maxItems) > memory
    {
      hide Partition, Distinct, Pushed, Wrap, Clamped;
      var n: nat := Clamped(currItems, count, maxItems);
      ClampedIs(currItems, count, maxItems, memory);
      if n > 0 && Wrap(currItems + n) <= maxItems {
        if n > memory {
          return NoMemory;
        }
        ghost var before := free;
        TotalConcat(caches, [n]);
        assert Total([n]) == n by { assert [n][..0] == []; }
        PartitionGrows(caches, free, held, n);
        caches := caches + [n];
        allocationCount := allocationCount + 1;
        var i: nat := 0;
        while i < n
          invariant caches == old(caches) + [n] && held == old(held) && maxItems == old(maxItems)
          invariant 0 <= i <= n && free == before + Pushed(|caches| - 1, n, i)
          invariant currItems == old(currItems) && increaseStep == old(increaseStep) && allocationCount == |caches|
        {
          PushedNext(|caches| - 1, n, i);
          free := free + [Cell(|caches| - 1, n - 1 - i)];
          i := i + 1;
        }
        currItems := currItems + n;
        return Grown;
      }
      return Refused;
    }

    /** create: the last freed cell, or the first of a new cache; null exactly when there is neither. */
    method Create(memory: nat) returns (r: Outcome)
      requires Valid() && currItems + memory < WORD
      modifies this
      ensures Valid() && maxItems == old(maxItems) && increaseStep == old(increaseStep)
      ensures r.Item? ==> r.cell !in old(held) && held == old(held) + {r.cell} && IsCell(caches, r.cell)
      ensures !r.Item? ==> held == old(held) && free == old(free) && caches == old(caches) && currItems == old(currItems)
      ensures old(free) != [] ==>
                r == Item(old(free[|free| - 1])) && free == old(free[..|free| - 1]) && caches == old(caches) && currItems == old(currItems)
      ensures r.Null? <==>
                old(free) == [] && (increaseStep == 0 || (old(currItems) == maxItems && maxItems + increaseStep < WORD))
      ensures r.Throws? ==> old(free) == [] && Clamped(old(currItems), increaseStep, maxItems) > memory
      ensures r.Item? && old(free) == [] ==> currItems > old(currItems) && r.cell == Cell(|old(caches)|, 0)
    {
      hide Partition, Clamped, Wrap, Pushed, Distinct;
      if free == [] {
        var growth := Resize(increaseStep, memory);
        if growth.Grown? {
          PushedLast(|old(caches)|, |free|);
        }
        if growth.NoMemory? {
          return Throws;
        }
        if growth.Refused? {
          return Null;
        }
      }
      PartitionMoves(caches, free, held, Cell(0, 0));
      LastIsFree(caches, free, held);
      var cell := free[|free| - 1];
      free := free[..|free| - 1];
      held := held + {cell};
      r := Item(cell);
    }

    /** destroy, of an item the client holds or of null. */
    method Destroy(item: Option<Cell>) returns (ok: bool)
      requires Valid() && (item.Some? ==> item.value in held)
      modifies this`free, this`held
      ensures Valid() && ok == item.Some?
      ensures item.Some? ==> free == old(free) + [item.value] && held == old(held) - {item.value}
      ensures item.None? ==> free == old(free) && held == old(held)
    {
      if item.None? {
        return false;
      }
      PartitionMoves(caches, free, held, item.value);
      free := free + [item.value];
      held := held - {item.value};
      ok := true;
    }

    /** destroy of count neighbouring items the client holds. */
    method DestroyMany(first: Cell, count: nat) returns (itemCount: nat)
      requires Valid() && forall i: nat :: i < count ==> Nth(first, i) in held
      modifies this`free, this`held
      ensures Valid() && itemCount == count && |free| == |old(free)| + count
      ensures forall c :: c in held <==> c in old(held) && !(c.cache == first.cache && first.index <= c.index < first.index + count)
    {
      itemCount := 0;
      while itemCount != count
        invariant 0 <= itemCount <= count && Valid() && |free| == |old(free)| + itemCount
        invariant forall c :: c in held <==> c in old(held) && !(c.cache == first.cache && first.index <= c.index < first.index + itemCount)
      {
        var cell := Nth(first, itemCount);
        PartitionMoves(caches, free, held, cell);
        free := free + [cell];
        held := held - {cell};
        itemCount := itemCount + 1;
      }
    }

    /** reset: whatever was done with the items before, every cell is free again, once. */
    method Reset()
      requires Sized()
      modifies this`free, this`held
      ensures Valid() && held == {} && |free| == currItems
    {
      free := [];
      held := {};
      var k := 0;
      while k < |caches|
        invariant 0 <= k <= |caches| && Partition(caches[..k], free, {})
        modifies this`free
      {
        ghost var before := free;
        var i := 0;
        while i < caches[k]
          invariant 0 <= i <= caches[k] && free == before + Pushed(k, caches[k], i)
          modifies this`free
        {
          PushedNext(k, caches[k], i);
          free := free + [Cell(k, caches[k] - 1 - i)];
          i := i + 1;
        }
        PartitionGrows(caches[..k], before, {}, caches[k]);
        assert caches[..k] + [caches[k]] == caches[..k + 1];
        k := k + 1;
      }
      assert caches[..k] == caches;
      PartitionCount(caches, free, {});
    }
  }

  /** A pool of one item and no step: its second create gives null, however far the limit is and however much memory there is. */
  method StarvedPool(most: nat, memory: nat) returns (first: Outcome, second: Outcome, total: nat)
    requires 1 < most < WORD && 0 < memory < WORD - 1
    ensures first.Item? && second == Null && total == 1
  {
    var pool := new Pool(1, most, 0, memory);
    first := pool.Create(memory);
    second := pool.Create(memory);
    total := pool.currItems;
  }

  /** The clamp keeps within the limit for any count that does not make the sum wrap, and only then reliably. */
  lemma ClampIsExact(curr: nat, count: nat, most: nat)
    requires curr <= most < WORD && count < WORD
    ensures curr + count < WORD ==>
              Clamped(curr, count, most) == if curr + count > most then most - curr else count
    ensures curr + Clamped(curr, count, most) <= most <==> curr + count < WORD || Wrap(curr + count) > most
  {
    WrapOnce(curr + count);
    if curr + count >= WORD {
      assert Wrap(curr + count) == curr + count - WORD;
    }
  }
}
