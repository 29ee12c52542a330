/** Positions in a circular table whose size is a power of two. */
module Circular {
  import opened Words

  function Pow2(k: nat): (r: nat)
    ensures r > 0
  {
    if k == 0 then 1 else 2 * Pow2(k - 1)
  }

  /** Where number `q` is kept in a table of `size` entries shifted by `off`. */
  function Slot(q: int, off: int, size: nat): (r: nat)
    requires size > 0
    ensures r < size
  {
    (q + off) % size
  }

  lemma ModOfMultiple(x: int, size: nat, j: int)
    requires size > 0
    ensures (x + size * j) % size == x % size
  {
    var y := x + size * j;
    var a, b := x / size, y / size;
    assert x == size * a + x % size && y == size * b + y % size;
    SameRemainder(size, b - a - j, x % size, y % size);
  }

  /** Remainders that differ by a multiple of the divisor are equal. */
  lemma SameRemainder(size: nat, c: int, r: int, r': int)
    requires size > 0 && 0 <= r < size && 0 <= r' < size && r - r' == size * c
    ensures r == r' && c == 0
  {
  }

  lemma AddMod(x: int, y: int, size: nat)
    requires size > 0
    ensures (x % size + y) % size == (x + y) % size
  {
    ModOfMultiple(x + y, size, -(x / size));
    assert x % size + y == x + y + size * -(x / size);
  }

  lemma SlotNext(q: int, off: int, size: nat)
    requires size > 0
    ensures (Slot(q, off, size) + 1) % size == Slot(q + 1, off, size)
  {
    AddMod(q + off, 1, size);
  }

  /** Two numbers less than `size` apart have different slots. */
  lemma SlotDistinct(q: int, q': int, off: int, size: nat)
    requires size > 0 && q < q' < q + size
    ensures Slot(q, off, size) != Slot(q', off, size)
  {
    var x, y := q + off, q' + off;
    if x % size == y % size {
      assert y - x == size * (y / size - x / size);
      SameRemainder(size, y / size - x / size, y - x, 0);
    }
  }

  lemma {:induction false} Pow2Divides(k: nat, m: nat)
    requires k <= m
    ensures Pow2(m) == Pow2(k) * Pow2(m - k)
  {
    if k < m { Pow2Divides(k, m - 1); }
  }

  lemma {:induction false} Pow2Monotone(k: nat, m: nat)
    requires k <= m
    ensures Pow2(k) <= Pow2(m)
  {
    if k < m { Pow2Monotone(k, m - 1); }
  }

  /** Bitwise and of two numbers. */
  function And(a: nat, b: nat): nat {
    if a == 0 || b == 0 then 0 else 2 * And(a / 2, b / 2) + (if a % 2 == 1 && b % 2 == 1 then 1 else 0)
  }

  /** `x & (size - 1)` is `x % size` for a power of two: the source masks, the
      model takes remainders. */
  lemma {:induction false} MaskIsRemainder(x: nat, k: nat)
    ensures And(x, Pow2(k) - 1) == x % Pow2(k)
  {
    if k > 0 && x > 0 {
      var h := Pow2(k - 1);
      assert And(x / 2, h - 1) == (x / 2) % h by { MaskIsRemainder(x / 2, k - 1); }
      assert And(x, 2 * h - 1) == 2 * And(x / 2, h - 1) + x % 2 by { AndOdd(x, h - 1); }
      assert x % (2 * h) == 2 * ((x / 2) % h) + x % 2 by { HalveRemainder(x, h, 2 * h); }
    } else if k > 0 {
      RemainderIs(0, Pow2(k), 0, 0);
    }
  }

  lemma AndOdd(x: nat, n: nat)
    requires x > 0
    ensures And(x, 2 * n + 1) == 2 * And(x / 2, n) + x % 2
  {
    assert (2 * n + 1) / 2 == n && (2 * n + 1) % 2 == 1;
  }

  lemma HalveRemainder(x: nat, h: nat, p: nat)
    requires h > 0 && p == 2 * h
    ensures x % p == 2 * ((x / 2) % h) + x % 2
  {
    var q, r := (x / 2) / h, (x / 2) % h;
    assert x / 2 == h * q + r;
    RemainderIs(x, p, q, 2 * r + x % 2);
  }

  lemma RemainderIs(x: nat, size: nat, q: int, r: nat)
    requires size > 0 && x == size * q + r && r < size
    ensures x % size == r
  {
    ModOfMultiple(r, size, q);
  }
}
