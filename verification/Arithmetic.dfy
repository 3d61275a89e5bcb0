/** Machine words and the few facts about multiplication and division the other modules need. */
module Arithmetic {
  const USIZE_VALUES: nat := 0x1_0000_0000_0000_0000

  type Usize = x: nat | x < USIZE_VALUES

  function AddUsize(a: nat, b: nat): Usize {
    (a + b) % USIZE_VALUES
  }

  function SubUsize(a: Usize, b: Usize): Usize {
    (a + USIZE_VALUES - b) % USIZE_VALUES
  }

  function Min(a: nat, b: nat): nat {
    if a < b then a else b
  }

  lemma MulMono(a: nat, b: nat, d: nat)
    requires a <= b
    ensures a * d <= b * d
  {
    assert b * d == a * d + (b - a) * d;
  }

  lemma MulAdd(a: nat, b: nat, d: nat)
    ensures (a + b) * d == a * d + b * d
  {
  }

  lemma MulAssoc(a: nat, b: nat, c: nat)
    ensures a * (b * c) == (a * b) * c
  {
  }

  lemma DivUnique(x: nat, d: nat, q: nat, r: nat)
    requires r < d && x == q * d + r
    ensures x / d == q && x % d == r
  {
    var p, t := x / d, x % d;
    assert x == p * d + t;
    if p < q {
      MulMono(p + 1, q, d);
    } else if q < p {
      MulMono(q + 1, p, d);
    }
  }

  lemma FloorBound(j: nat, e: nat, i: nat)
    requires e > 0
    ensures j * e <= i <==> j <= i / e
  {
    var q, r := i / e, i % e;
    assert i == q * e + r;
    if j <= q {
      MulMono(j, q, e);
    } else {
      MulMono(q + 1, j, e);
    }
  }

  /** Ceiling division, clamped at zero. */
  function CeilDiv(x: int, d: nat): nat
    requires d > 0
  {
    if x <= 0 then 0 else (x + d - 1) / d
  }

  lemma CeilBound(j: nat, e: nat, x: int)
    requires e > 0
    ensures x <= j * e <==> CeilDiv(x, e) <= j
  {
    if x > 0 {
      FloorBound(j + 1, e, x + e - 1);
    }
  }

  lemma CeilMono(x: int, y: int, e: nat)
    requires e > 0 && x <= y
    ensures CeilDiv(x, e) <= CeilDiv(y, e)
  {
    CeilBound(CeilDiv(y, e), e, y);
    CeilBound(CeilDiv(y, e), e, x);
  }

  lemma RemainderBounds(i: nat, e: nat)
    requires e > 0
    ensures i % e <= i && i % e < e && (i < e ==> i % e == i && i / e == 0)
  {
    var q, r := i / e, i % e;
    assert i == q * e + r;
    if i < e {
      DivUnique(i, e, 0, i);
    }
  }
}
