/**
  The finalizer that spreads 64-bit thread ids over the hash table (source/utils/concurrentqueue.h:376-385). It is a
  bijection of the words, so distinct ids keep distinct hashes.
*/
module HashFinalizer {
  import opened Words
  import P = PowersOfTwo

  // ---------------------------------------------------------------- shift and exclusive or

  /** x >> k */
  function Shift(x: nat, k: nat): nat
    decreases k
  {
    if k == 0 then x else Shift(x / 2, k - 1)
  }

  function Bit(a: nat, b: nat): nat {
    if a % 2 == b % 2 then 0 else 1
  }

  /** a ^ b */
  function Xor(a: nat, b: nat): nat {
    if a == 0 then b else if b == 0 then a else 2 * Xor(a / 2, b / 2) + Bit(a, b)
  }

  lemma XorHalves(a: nat, b: nat)
    ensures Xor(a, b) / 2 == Xor(a / 2, b / 2) && Xor(a, b) % 2 == Bit(a, b)
  {
  }

  lemma {:induction false} XorTwice(a: nat, b: nat)
    ensures Xor(Xor(a, b), b) == a
    decreases a + b
  {
    if a != 0 && b != 0 {
      XorTwice(a / 2, b / 2);
      XorHalves(a, b);
      XorHalves(Xor(a, b), b);
    } else {
      XorSelf(b);
    }
  }

  lemma {:induction false} XorSelf(b: nat)
    ensures Xor(b, b) == 0 && Xor(0, b) == b && Xor(b, 0) == b
  {
    if b != 0 {
      XorSelf(b / 2);
    }
  }

  lemma {:induction false} ShiftXor(a: nat, b: nat, k: nat)
    ensures Shift(Xor(a, b), k) == Xor(Shift(a, k), Shift(b, k))
    decreases k
  {
    if k > 0 {
      XorHalves(a, b);
      ShiftXor(a / 2, b / 2, k - 1);
    }
  }

  lemma {:induction false} ShiftTwice(x: nat, j: nat, k: nat)
    ensures Shift(Shift(x, j), k) == Shift(x, j + k)
    decreases j
  {
    if j > 0 {
      ShiftTwice(x / 2, j - 1, k);
    }
  }

  lemma {:induction false} ShiftOut(x: nat, k: nat)
    requires x < P.Power(k)
    ensures Shift(x, k) == 0
    decreases k
  {
    if k > 0 {
      ShiftOut(x / 2, k - 1);
    }
  }

  lemma {:induction false} XorBelow(a: nat, b: nat, k: nat)
    requires a < P.Power(k) && b < P.Power(k)
    ensures Xor(a, b) < P.Power(k)
    decreases k
  {
    if k > 0 && a != 0 && b != 0 {
      XorBelow(a / 2, b / 2, k - 1);
    }
  }

  lemma {:induction false} ShiftBelow(x: nat, k: nat)
    ensures Shift(x, k) <= x
    decreases k
  {
    if k > 0 {
      ShiftBelow(x / 2, k - 1);
    }
  }

  lemma {:induction false} PowerOfSum(j: nat, k: nat)
    ensures P.Power(j + k) == P.Power(j) * P.Power(k)
  {
    if j > 0 {
      PowerOfSum(j - 1, k);
    }
  }

  lemma WordIsPower()
    ensures P.Power(64) == WORD
  {
    assert P.Power(4) == 16;
    PowerOfSum(4, 4);
    PowerOfSum(8, 8);
    PowerOfSum(16, 16);
    PowerOfSum(32, 32);
  }

  // ---------------------------------------------------------------- the finalizer

  const FIRST: nat := 0xff51_afd7_ed55_8ccd
  const SECOND: nat := 0xc4ce_b9fe_1a85_ec53

  /** Inverses of the multipliers. */
  const FIRST_INVERSE: nat := 0x4f74_430c_22a5_4005
  const SECOND_INVERSE: nat := 0x9cb4_b2f8_1293_37db

  /** h ^= h >> 33 */
  function Fold(h: nat): nat {
    Xor(h, Shift(h, 33))
  }

  function Hash(h: nat): nat {
    Fold(Wrap(Fold(Wrap(Fold(h) * FIRST)) * SECOND))
  }

  /** The same steps backwards. */
  function Unhash(h: nat): nat {
    Fold(Wrap(Fold(Wrap(Fold(h) * SECOND_INVERSE)) * FIRST_INVERSE))
  }

  lemma FoldTwice(h: nat)
    requires h < WORD
    ensures Fold(h) < WORD && Fold(Fold(h)) == h
  {
    WordIsPower();
    ShiftBelow(h, 33);
    XorBelow(h, Shift(h, 33), 64);
    ShiftXor(h, Shift(h, 33), 33);
    ShiftTwice(h, 33, 33);
    PowerOfSum(64, 2);
    ShiftOut(h, 66);
    XorSelf(Shift(h, 33));
    XorTwice(h, Shift(h, 33));
  }

  /** Multiplying by c and then by its inverse d, modulo the word size, changes nothing. */
  lemma TimesBack(h: nat, c: nat, d: nat, k: nat)
    requires h < WORD && c * d == k * WORD + 1
    ensures Wrap(Wrap(h * c) * d) == h
  {
    var q := h * c / WORD;
    assert h * c == q * WORD + Wrap(h * c);
    calc {
      Wrap(h * c) * d;
      (h * c - q * WORD) * d;
      h * (c * d) - q * d * WORD;
      h * (k * WORD + 1) - q * d * WORD;
      h + (h * k - q * d) * WORD;
    }
    WrapMultiple(h, h * k - q * d);
  }

  lemma WrapMultiple(h: nat, m: int)
    requires h < WORD
    ensures Wrap(h + m * WORD) == h
  {
  }

  /** The finalizer is a bijection of the 64-bit words: Unhash is its inverse, from both sides. */
  lemma HashIsBijection(h: nat)
    requires h < WORD
    ensures Hash(h) < WORD && Unhash(Hash(h)) == h
    ensures Unhash(h) < WORD && Hash(Unhash(h)) == h
  {
    hide Fold, Wrap;
    ThereAndBack(h, FIRST, SECOND, FIRST_INVERSE, SECOND_INVERSE, FIRST * FIRST_INVERSE / WORD, SECOND * SECOND_INVERSE / WORD);
    ThereAndBack(h, SECOND_INVERSE, FIRST_INVERSE, SECOND, FIRST, SECOND * SECOND_INVERSE / WORD, FIRST * FIRST_INVERSE / WORD);
  }

  lemma ThereAndBack(h: nat, c: nat, d: nat, c': nat, d': nat, j: nat, k: nat)
    requires h < WORD && c * c' == j * WORD + 1 && d * d' == k * WORD + 1
    ensures
      var r := Fold(Wrap(Fold(Wrap(Fold(h) * c)) * d));
      r < WORD && Fold(Wrap(Fold(Wrap(Fold(r) * d')) * c')) == h
  {
    hide Fold, Wrap;
    var a := Wrap(Fold(h) * c);
    var b := Wrap(Fold(a) * d);
    FoldTwice(h);
    FoldTwice(a);
    FoldTwice(b);
    TimesBack(Fold(a), d, d', k);
    TimesBack(Fold(h), c, c', j);
  }

  /** Distinct thread ids have distinct hashes. */
  lemma DistinctIdsDistinctHashes(a: nat, b: nat)
    requires a < WORD && b < WORD
    ensures Hash(a) == Hash(b) <==> a == b
  {
    hide Hash, Unhash;
    HashIsBijection(a);
    HashIsBijection(b);
  }
}
