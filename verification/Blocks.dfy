/** Which block an index lies in: blocks of BLOCK_SIZE consecutive indices, for any block size above 1. */
module Blocks {
  import opened Words

  /** BLOCK_SIZE is a power of two that fits the index type; masks by it are written as remainders. */
  type BlockSize = n: nat | 1 < n <= HALF witness 2

  const BLOCK_SIZE: BlockSize

  /** The first index of block n. */
  function Base(n: int): (b: int)
    ensures n >= 0 ==> b >= 0
  {
    n * BLOCK_SIZE
  }

  /** index & ~(BLOCK_SIZE - 1), as a block number. */
  function BlockOf(i: nat): nat {
    i / BLOCK_SIZE
  }

  /** index & (BLOCK_SIZE - 1). */
  function Offset(i: nat): nat {
    i % BLOCK_SIZE
  }

  /** How many blocks the first x indices touch. */
  function BlocksFor(x: nat): nat {
    (x + BLOCK_SIZE - 1) / BLOCK_SIZE
  }

  lemma BaseNext(n: int)
    ensures Base(n + 1) == Base(n) + BLOCK_SIZE
    ensures Base(0) == 0
  {
  }

  lemma {:induction false} BaseOrder(m: int, n: int)
    requires m < n
    ensures Base(m) + BLOCK_SIZE <= Base(n)
    decreases n - m
  {
    BaseNext(n - 1);
    if m < n - 1 {
      BaseOrder(m, n - 1);
    }
  }

  lemma InBlock(i: nat)
    ensures Base(BlockOf(i)) <= i < Base(BlockOf(i)) + BLOCK_SIZE
    ensures Offset(i) == i - Base(BlockOf(i)) && Offset(i) < BLOCK_SIZE
  {
    assert i == (i / BLOCK_SIZE) * BLOCK_SIZE + i % BLOCK_SIZE;
  }

  lemma BlockOfIs(i: nat, n: nat)
    requires Base(n) <= i < Base(n) + BLOCK_SIZE
    ensures BlockOf(i) == n
  {
    InBlock(i);
    if BlockOf(i) < n {
      BaseOrder(BlockOf(i), n);
    } else if n < BlockOf(i) {
      BaseOrder(n, BlockOf(i));
    }
  }

  /** Two indices in the same block have different offsets. */
  lemma OffsetsDiffer(i: nat, j: nat)
    requires BlockOf(i) == BlockOf(j) && i != j
    ensures Offset(i) != Offset(j)
  {
    InBlock(i);
    InBlock(j);
  }

  lemma BlockOfOrder(i: nat, j: nat)
    requires i <= j
    ensures BlockOf(i) <= BlockOf(j)
  {
    InBlock(i);
    InBlock(j);
    if BlockOf(j) < BlockOf(i) {
      BaseOrder(BlockOf(j), BlockOf(i));
    }
  }

  lemma BlocksForIs(x: nat)
    ensures x <= Base(BlocksFor(x)) < x + BLOCK_SIZE
    ensures BlocksFor(0) == 0
  {
    var y := x + BLOCK_SIZE - 1;
    assert y == (y / BLOCK_SIZE) * BLOCK_SIZE + y % BLOCK_SIZE;
    if x == 0 {
      BlockOfIs(y, 0);
    }
  }

  /** Indices below x lie in the first BlocksFor(x) blocks; only the last of those can hold x itself. */
  lemma BlocksForSplits(x: nat, i: nat)
    ensures i < x ==> BlockOf(i) < BlocksFor(x)
    ensures x <= i ==> BlocksFor(x) <= BlockOf(i) + 1
    ensures x <= i && BlockOf(i) + 1 == BlocksFor(x) ==> x < Base(BlocksFor(x))
  {
    BlocksForIs(x);
    InBlock(i);
    BaseNext(BlockOf(i));
    if BlocksFor(x) <= BlockOf(i) {
      if BlocksFor(x) < BlockOf(i) {
        BaseOrder(BlocksFor(x), BlockOf(i));
      }
    } else if BlockOf(i) + 1 < BlocksFor(x) {
      BaseOrder(BlockOf(i) + 1, BlocksFor(x));
    }
  }

  lemma BlocksForOrder(x: nat, y: nat)
    requires x <= y
    ensures BlocksFor(x) <= BlocksFor(y)
  {
    BlocksForIs(x);
    BlocksForIs(y);
    if BlocksFor(y) < BlocksFor(x) {
      BaseOrder(BlocksFor(y), BlocksFor(x));
    }
  }

  lemma BlockOfNext(i: nat)
    ensures BlockOf(i + 1) == BlockOf(i) || BlockOf(i + 1) == BlockOf(i) + 1
  {
    InBlock(i);
    BaseNext(BlockOf(i));
    if i + 1 < Base(BlockOf(i)) + BLOCK_SIZE {
      BlockOfIs(i + 1, BlockOf(i));
    } else {
      BlockOfIs(i + 1, BlockOf(i) + 1);
    }
  }
}
