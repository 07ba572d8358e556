/** ceilToPow2 on 64-bit words (source/utils/readerwriterqueue.h:535-547), and the number it stands for. */
module PowersOfTwo {
  // ---------------------------------------------------------------- on words

  predicate IsPower(p: bv64) {
    p != 0 && p & (p - 1) == 0
  }

  const HIGHEST: bv64 := 0x8000_0000_0000_0000

  /** x |= x >> d */
  function Fold(x: bv64, d: bv64): bv64
    requires d < 64
  {
    x | (x >> d)
  }

  /** All bits below the highest one set. */
  function Smeared(x: bv64): bv64 {
    Fold(Fold(Fold(Fold(Fold(Fold(x, 1), 2), 4), 8), 16), 32)
  }

  /** ceilToPow2 as a whole, wrapping where the code wraps. */
  function CeilOf(x: bv64): bv64 {
    Smeared(x - 1) + 1
  }

  predicate IsMask(y: bv64) {
    y & (y + 1) == 0
  }

  predicate Covers(y: bv64, z: bv64) {
    z <= y && (z != 0 ==> y >> 1 < z) && (z == 0 ==> y == 0)
  }

  lemma SmearedIsMask(z: bv64)
    ensures IsMask(Smeared(z))
  {
  }

  lemma SmearedIsAbove(z: bv64)
    ensures z <= Smeared(z) && (z == 0 ==> Smeared(z) == 0)
  {
  }

  lemma SmearedIsClose(z: bv64)
    ensures z != 0 ==> Smeared(z) >> 1 < z
  {
  }

  lemma SmearedCovers(z: bv64)
    ensures Covers(Smeared(z), z)
  {
    hide Smeared;
    SmearedIsAbove(z);
    SmearedIsClose(z);
  }

  predicate Representable(x: bv64) {
    x != 0 && x <= HIGHEST
  }

  predicate Above(r: bv64, x: bv64) {
    x <= r && (x == 1 ==> r == 1)
  }

  /** Half of r is below x. */
  predicate Close(r: bv64, x: bv64) {
    x > 1 ==> r >> 1 < x
  }

  predicate HasNext(y: bv64) {
    y + 1 != 0
  }

  lemma SmearedHasNext(x: bv64)
    requires Representable(x)
    ensures HasNext(Smeared(x - 1))
  {
  }

  lemma MaskToPower(y: bv64)
    requires IsMask(y) && HasNext(y)
    ensures IsPower(y + 1)
  {
  }

  lemma MaskIsAbove(y: bv64, x: bv64)
    requires IsMask(y) && HasNext(y) && Representable(x) && Covers(y, x - 1)
    ensures Above(y + 1, x)
  {
  }

  lemma MaskIsClose(y: bv64, x: bv64)
    requires IsMask(y) && y + 1 != 0 && x > 1 && Covers(y, x - 1)
    ensures (y + 1) >> 1 < x
  {
  }

  lemma MaskAfter(y: bv64, x: bv64)
    requires IsMask(y) && HasNext(y) && Covers(y, x - 1)
    ensures Close(y + 1, x)
  {
    hide IsMask, Covers;
    if x > 1 {
      MaskIsClose(y, x);
    }
  }

  lemma CeilFits(x: bv64)
    requires Representable(x)
    ensures IsPower(CeilOf(x)) && Above(CeilOf(x), x) && Close(CeilOf(x), x)
  {
    hide Smeared, IsMask, Covers, IsPower, Representable, HasNext, Above, Close;
    SmearedIsMask(x - 1);
    SmearedCovers(x - 1);
    SmearedHasNext(x);
    MaskToPower(Smeared(x - 1));
    MaskIsAbove(Smeared(x - 1), x);
    MaskAfter(Smeared(x - 1), x);
  }

  /** ceilToPow2 of 0, and of anything with no power of two above it, is 0. */
  lemma CeilWraps(x: bv64)
    requires !Representable(x)
    ensures CeilOf(x) == 0
  {
  }

  /** A power below another is at most half of it. */
  lemma PowersAreApart(p: bv64, r: bv64)
    requires IsPower(p) && IsPower(r) && p < r
    ensures p <= r >> 1
  {
  }

  /** The least power of two not below x; 0 if there is none among the words, and for 0 (CeilIsLeast). */
  method CeilToPow2(x: bv64) returns (r: bv64)
    ensures r == CeilOf(x)
  {
    hide Fold;
    var y := x - 1;
    y := Fold(y, 1);
    y := Fold(y, 2);
    y := Fold(y, 4);
    ghost var n := y;
    var i: bv64 := 1;
    while i < 8
      invariant i == 1 || i == 2 || i == 4 || i == 8
      invariant y == if i == 1 then n else if i == 2 then Fold(n, 8)
                     else if i == 4 then Fold(Fold(n, 8), 16) else Fold(Fold(Fold(n, 8), 16), 32)
      decreases if i == 1 then 3 else if i == 2 then 2 else if i == 4 then 1 else 0
    {
      y := Fold(y, i << 3);
      i := i << 1;
    }
    r := y + 1;
  }

  lemma NoPowerBetween(p: bv64, r: bv64, x: bv64)
    requires IsPower(p) && IsPower(r) && x != 0 && x <= p && (x > 1 ==> r >> 1 < x) && (x == 1 ==> r == 1)
    ensures r <= p
  {
    if p < r {
      PowersAreApart(p, r);
    }
  }

  lemma NoPowerBelow(p: bv64, r: bv64, x: bv64)
    requires IsPower(p) && IsPower(r) && Representable(x) && Above(r, x) && Close(r, x) && x <= p
    ensures r <= p
  {
    hide IsPower;
    NoPowerBetween(p, r, x);
  }

  /** What CeilToPow2 computes is a power of two not below x, and no other such power is smaller. */
  lemma CeilIsLeast(x: bv64, p: bv64)
    requires Representable(x) && IsPower(p) && x <= p
    ensures IsPower(CeilOf(x)) && x <= CeilOf(x) <= p
  {
    hide CeilOf, IsPower, Representable, Close;
    CeilFits(x);
    NoPowerBelow(p, CeilOf(x), x);
  }

  // ---------------------------------------------------------------- on numbers

  function Power(e: nat): (p: nat)
    ensures p > 0
  {
    if e == 0 then 1 else 2 * Power(e - 1)
  }

  /** The least power of two not below n. */
  function Ceiling(n: nat): (p: nat)
    ensures p >= n && exists e :: p == Power(e)
    ensures forall e :: Power(e) >= n ==> p <= Power(e)
  {
    CeilingFrom(n, 0)
  }

  function CeilingFrom(n: nat, e: nat): (p: nat)
    requires e == 0 || Power(e - 1) < n
    ensures p >= n && (exists f :: p == Power(f)) && forall f :: Power(f) >= n ==> p <= Power(f)
    decreases n - Power(e)
  {
    if Power(e) >= n then
      assert forall f :: Power(f) >= n ==> Power(e) <= Power(f) by {
        forall f: nat | Power(f) >= n ensures Power(e) <= Power(f) {
          if f < e {
            PowersGrow(f, e - 1);
          } else {
            PowersGrow(e, f);
          }
        }
      }
      Power(e)
    else CeilingFrom(n, e + 1)
  }

  lemma {:induction false} PowersGrow(e: nat, f: nat)
    requires e <= f
    ensures Power(e) <= Power(f)
  {
    if e < f {
      PowersGrow(e, f - 1);
    }
  }

  // ---------------------------------------------------------------- words and numbers

  function Half(x: bv64): bv64 {
    x >> 1
  }

  lemma HalfIsLess(x: bv64)
    requires x != 0
    ensures Half(x) < x
  {
  }

  predicate Odd(x: bv64) {
    x & 1 == 1
  }

  function Inc(x: bv64): bv64 {
    x + 1
  }

  /** The number a word stands for. */
  function Number(x: bv64): (n: nat)
    ensures n == 0 <==> x == 0
    decreases x
  {
    if x == 0 then 0
    else
      HalfIsLess(x);
      if Odd(x) then 2 * Number(Half(x)) + 1
      else
        EvenHalf(x);
        2 * Number(Half(x))
  }

  lemma HalvesOrder(x: bv64, y: bv64)
    requires x <= y
    ensures Half(x) <= Half(y)
  {
  }

  lemma SameHalves(x: bv64, y: bv64)
    requires x <= y && Half(x) == Half(y) && Odd(x)
    ensures Odd(y)
  {
  }

  lemma BitsMake(x: bv64, y: bv64)
    requires Half(x) == Half(y) && (Odd(x) <==> Odd(y))
    ensures x == y
  {
  }

  lemma EvenHalf(x: bv64)
    requires x != 0 && !Odd(x)
    ensures Half(x) != 0
  {
  }

  lemma {:induction false} NumberInjective(x: bv64, y: bv64)
    requires Number(x) == Number(y)
    ensures x == y
    decreases Number(x)
  {
    hide Half, Odd;
    if x != 0 {
      NumberInjective(Half(x), Half(y));
      BitsMake(x, y);
    }
  }

  lemma NotZero(x: bv64, y: bv64)
    requires x != 0 && x <= y
    ensures y != 0
  {
  }

  lemma {:induction false} NumberOrder(x: bv64, y: bv64)
    requires x <= y
    ensures Number(x) <= Number(y)
    decreases Number(y)
  {
    hide Half, Odd;
    if x != 0 {
      NotZero(x, y);
      HalvesOrder(x, y);
      NumberOrder(Half(x), Half(y));
      if Number(Half(x)) == Number(Half(y)) {
        NumberInjective(Half(x), Half(y));
        if Odd(x) {
          SameHalves(x, y);
        }
      }
    }
  }

  lemma IncOdd(x: bv64)
    requires Inc(x) != 0 && Odd(x)
    ensures Half(Inc(x)) == Inc(Half(x)) && !Odd(Inc(x)) && Inc(Half(x)) != 0 && x != 0
  {
  }

  lemma IncEven(x: bv64)
    requires !Odd(x)
    ensures Half(Inc(x)) == Half(x) && Odd(Inc(x)) && Inc(x) != 0 && (x == 0 ==> Half(x) == 0)
  {
  }

  lemma {:induction false} NumberInc(x: bv64)
    requires Inc(x) != 0
    ensures Number(Inc(x)) == Number(x) + 1
    decreases Number(x)
  {
    hide Half, Odd, Inc;
    if Odd(x) {
      IncOdd(x);
      NumberInc(Half(x));
    } else {
      IncEven(x);
    }
  }

  lemma HalfPower(x: bv64)
    requires IsPower(x) && x != 1
    ensures !Odd(x) && IsPower(Half(x)) && x != 0
  {
  }

  lemma {:induction false} PowerNumber(x: bv64) returns (e: nat)
    requires IsPower(x)
    ensures Number(x) == Power(e) && (if x == 1 then e == 0 else e > 0 && Number(Half(x)) == Power(e - 1))
    decreases Number(x)
  {
    if x == 1 {
      e := 0;
    } else {
      hide Half, Odd, IsPower;
      HalfPower(x);
      var f := PowerNumber(Half(x));
      e := f + 1;
    }
  }

  /** On words that have one, ceilToPow2 gives the least power of two not below the number. */
  lemma CeilIsCeiling(x: bv64)
    requires Representable(x)
    ensures Number(CeilOf(x)) == Ceiling(Number(x))
  {
    hide CeilOf, IsPower, Representable, Close, Above, Ceiling, Half, Odd;
    var r, n := CeilOf(x), Number(x);
    CeilFits(x);
    AboveNumber(r, x);
    var e := PowerNumber(r);
    var f: nat :| Ceiling(n) == Power(f);
    if r != 1 {
      CloseNumber(r, x);
      if f < e {
        PowersGrow(f, e - 1);
      } else {
        PowersGrow(e, f);
      }
    } else {
      PowersGrow(0, f);
    }
  }

  lemma AboveNumber(r: bv64, x: bv64)
    requires Above(r, x) && Representable(x)
    ensures Number(x) <= Number(r) && Number(x) > 0
  {
    hide Number;
    NumberOrder(x, r);
  }

  lemma StrictOrder(x: bv64, y: bv64)
    requires x <= y && x != y
    ensures Number(x) < Number(y)
  {
    hide Number;
    NumberOrder(x, y);
    if Number(x) == Number(y) {
      NumberInjective(x, y);
    }
  }

  predicate Below(x: bv64, y: bv64) {
    x <= y && x != y
  }

  predicate AboveOne(x: bv64) {
    x > 1
  }

  lemma OneOnly(r: bv64, x: bv64)
    requires Above(r, x) && Representable(x) && r != 1
    ensures AboveOne(x)
  {
  }

  lemma HalfIsBelow(r: bv64, x: bv64)
    requires Close(r, x) && AboveOne(x)
    ensures Below(Half(r), x)
  {
  }

  lemma BelowNumber(x: bv64, y: bv64)
    requires Below(x, y)
    ensures Number(x) < Number(y)
  {
    StrictOrder(x, y);
  }

  lemma CloseNumber(r: bv64, x: bv64)
    requires Close(r, x) && Above(r, x) && Representable(x) && r != 1
    ensures Number(Half(r)) < Number(x)
  {
    hide Number, Half, Close, Above, Representable, AboveOne, Below;
    OneOnly(r, x);
    HalfIsBelow(r, x);
    BelowNumber(Half(r), x);
  }

  function Double(x: bv64): bv64 {
    x << 1
  }

  lemma DoubledWord(x: bv64)
    requires x != 0 && x < HIGHEST
    ensures Double(x) != 0 && Half(Double(x)) == x && !Odd(Double(x))
  {
  }

  lemma NumberDouble(x: bv64)
    requires x != 0 && x < HIGHEST
    ensures Number(Double(x)) == 2 * Number(x)
  {
    hide Half, Odd, Double;
    DoubledWord(x);
  }

  lemma NumberByte(x: bv64)
    requires x == 0x80 || x == 0x8000 || x == 0x80_0000 || x == 0x8000_0000 || x == 0x80_0000_0000
             || x == 0x8000_0000_0000 || x == 0x80_0000_0000_0000
    ensures Number(x << 8) == 256 * Number(x)
  {
    hide Number, Half, Odd;
    NumberDouble(x);
    NumberDouble(x << 1);
    NumberDouble(x << 2);
    NumberDouble(x << 3);
    NumberDouble(x << 4);
    NumberDouble(x << 5);
    NumberDouble(x << 6);
    NumberDouble(x << 7);
  }

  lemma HighestNumber()
    ensures Number(HIGHEST) == 0x8000_0000_0000_0000
  {
    assert Number(0x80) == 128;
    hide Number;
    NumberByte(0x80);
    NumberByte(0x8000);
    NumberByte(0x80_0000);
    NumberByte(0x8000_0000);
    NumberByte(0x80_0000_0000);
    NumberByte(0x8000_0000_0000);
    NumberByte(0x80_0000_0000_0000);
  }

  lemma NoneAbove(x: bv64)
    requires x >= HIGHEST
    ensures !Representable(Inc(x))
  {
  }

  lemma BelowIsNot(x: bv64)
    ensures x < HIGHEST <==> Inc(x) != 0 && Representable(Inc(x))
    ensures x < HIGHEST ==> x <= HIGHEST && x != HIGHEST
  {
  }
}
