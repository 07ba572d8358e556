/**
  Queue indices are 64-bit words that wrap around (source/utils/concurrentqueue.h:395-407). The models count with
  unbounded numbers and compare them the way the code does: wrapped, with circular_less_than.
*/
module Words {
  const WORD: nat := 0x1_0000_0000_0000_0000
  const HALF: nat := 0x8000_0000_0000_0000

  function Wrap(x: int): (w: nat)
    ensures w < WORD
  {
    x % WORD
  }

  /** circular_less_than on words. */
  predicate CircularLess(a: int, b: int) {
    Wrap(a - b) > HALF
  }

  /** The comparison agrees with `<` exactly while the operands are within half the range, on the side that matters. */
  lemma CircularLessIsLess(x: int, y: int)
    requires x < y + WORD && y < x + WORD
    ensures (CircularLess(Wrap(x), Wrap(y)) <==> x < y) <==> (x <= y + HALF && y < x + HALF)
  {
    WrapDifference(x, y);
    assert Wrap(x - y) == if x < y then x - y + WORD else x - y;
  }

  lemma WrapDifference(x: int, y: int)
    ensures Wrap(Wrap(x) - Wrap(y)) == Wrap(x - y)
  {
  }

  lemma WrapOnce(x: int)
    ensures Wrap(Wrap(x)) == Wrap(x)
    ensures 0 <= x < WORD ==> Wrap(x) == x
    ensures x < 0 <= x + WORD ==> Wrap(x) == x + WORD
  {
  }

  /** Words compare like the numbers they come from exactly while the smaller word and the difference fit in one. */
  lemma WrappedOrder(x: nat, y: nat)
    requires x <= y
    ensures Wrap(x) <= Wrap(y) <==> Wrap(x) + Wrap(y - x) < WORD
    ensures y - x < WORD ==> Wrap(y - x) == y - x
    ensures y < WORD ==> Wrap(x) <= Wrap(y)
  {
    WrapDifference(y, x);
  }
}
