/** Positions in circular buffers: congruence modulo a capacity. */
module Circular {
  ghost predicate Congruent(x: int, y: int, c: nat) {
    exists k: int :: Turns(x, y, k, c)
  }

  predicate Turns(x: int, y: int, k: int, c: nat) {
    x - y == k * c
  }

  lemma Reflexive(x: int, c: nat)
    ensures Congruent(x, x, c)
  {
    assert Turns(x, x, 0, c);
  }

  lemma Symmetric(x: int, y: int, c: nat)
    requires Congruent(x, y, c)
    ensures Congruent(y, x, c)
  {
    var k :| Turns(x, y, k, c);
    assert Turns(y, x, -k, c);
  }

  lemma Transitive(x: int, y: int, z: int, c: nat)
    requires Congruent(x, y, c) && Congruent(y, z, c)
    ensures Congruent(x, z, c)
  {
    var k :| Turns(x, y, k, c);
    var m :| Turns(y, z, m, c);
    assert k * c + m * c == (k + m) * c;
    assert Turns(x, z, k + m, c);
  }

  lemma Shift(x: int, y: int, d: int, c: nat)
    requires Congruent(x, y, c)
    ensures Congruent(x + d, y + d, c)
  {
    var k :| Turns(x, y, k, c);
    assert Turns(x + d, y + d, k, c);
  }

  lemma OneTurn(x: int, c: nat)
    ensures Congruent(x, x - c, c)
  {
    assert Turns(x, x - c, 1, c);
  }

  lemma Remainder(x: int, c: nat)
    requires c > 0
    ensures Congruent(x % c, x, c)
  {
    var q := x / c;
    assert x == q * c + x % c;
    assert -q * c == -(q * c);
    assert Turns(x % c, x, -q, c);
  }

  /** Two congruent numbers less than a turn apart are equal. */
  lemma Unique(x: int, y: int, c: nat)
    requires Congruent(x, y, c) && x < y + c && y < x + c
    ensures x == y
  {
    var k :| Turns(x, y, k, c);
  }

  /** Congruence modulo a multiple of c is congruence modulo c. */
  lemma Coarser(x: int, y: int, r: nat, c: nat)
    requires Congruent(x, y, c * r)
    ensures Congruent(x, y, c)
  {
    var k :| Turns(x, y, k, c * r);
    assert k * (c * r) == (k * r) * c;
    assert Turns(x, y, k * r, c);
  }

  /** The remainder is the only position of the buffer congruent to x. */
  lemma RemainderIs(x: int, p: nat, c: nat)
    requires p < c && Congruent(p, x, c)
    ensures x % c == p
  {
    Remainder(x, c);
    Symmetric(x % c, x, c);
    Transitive(p, x, x % c, c);
    Unique(p, x % c, c);
  }
}
