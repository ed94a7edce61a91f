/** Remainders by a symbolic modulus, for ring buffer indices. */
module Modular {

  lemma MulBounds(n: int, q: int)
    requires n > 0
    ensures q >= 1 ==> n * q >= n
    ensures q <= -1 ==> n * q <= -n
  {
    if q >= 1 {
      assert n * (q - 1) >= 0;
    } else if q <= -1 {
      assert n * (-q - 1) >= 0;
    }
  }

  lemma Distributes(n: int, a: int, b: int)
    ensures n * (a - b) == n * a - n * b
  {
  }

  lemma DivMod(a: nat, n: nat)
    requires n > 0
    ensures a == n * (a / n) + a % n && 0 <= a % n < n
  {
  }

  /** Quotient and remainder are determined by their equation. */
  lemma Unique(a: nat, n: nat, q: int, r: nat)
    requires r < n && a == n * q + r
    ensures a % n == r
  {
    DivMod(a, n);
    Distributes(n, q, a / n);
    MulBounds(n, q - a / n);
  }

  lemma Succ(a: nat, n: nat)
    requires n > 0
    ensures (a % n + 1) % n == (a + 1) % n
  {
    DivMod(a, n);
    if a % n + 1 == n {
      Distributes(n, a / n + 1, 1);
      Unique(a + 1, n, a / n + 1, 0);
      Unique(a % n + 1, n, 1, 0);
    } else {
      Unique(a + 1, n, a / n, a % n + 1);
      Unique(a % n + 1, n, 0, a % n + 1);
    }
  }

  lemma NextSlot(i: nat, k: nat, n: nat)
    requires n > 0 && k > 0 && i == (k - 1) % n
    ensures (i + 1) % n == k % n
  {
    Succ(k - 1, n);
  }

  /** Fewer than `n` steps never come back to the same slot. */
  lemma Apart(a: nat, b: nat, n: nat)
    requires a < b < a + n
    ensures a % n != b % n
  {
    if a % n == b % n {
      DivMod(a, n);
      DivMod(b, n);
      Distributes(n, b / n, a / n);
      MulBounds(n, b / n - a / n);
    }
  }

  /** `i * e` as repeated addition, which keeps products out of larger proofs. */
  function Times(i: nat, e: nat): nat {
    if i == 0 then 0 else Times(i - 1, e) + e
  }

  lemma {:induction false} TimesIsProduct(i: nat, e: nat)
    ensures Times(i, e) == i * e
  {
    if i > 0 {
      TimesIsProduct(i - 1, e);
      Distributes(e, i, 1);
    }
  }

  lemma {:induction false} TimesGrows(i: nat, j: nat, e: nat)
    requires i < j
    ensures Times(i, e) + e <= Times(j, e)
  {
    if i + 1 < j { TimesGrows(i, j - 1, e); }
  }

  /** `a % n` as repeated subtraction, for the same reason. */
  function Wrap(a: nat, n: nat): (w: nat)
    requires n > 0
    ensures w < n
  {
    if a < n then a else Wrap(a - n, n)
  }

  lemma {:induction false} WrapIsRemainder(a: nat, n: nat)
    requires n > 0
    ensures Wrap(a, n) == a % n
  {
    if a < n {
      Unique(a, n, 0, a);
    } else {
      WrapIsRemainder(a - n, n);
      DivMod(a - n, n);
      Distributes(n, (a - n) / n, -1);
      Unique(a, n, (a - n) / n + 1, (a - n) % n);
    }
  }

  lemma WrapApart(a: nat, b: nat, n: nat)
    requires a < b < a + n
    ensures Wrap(a, n) != Wrap(b, n)
  {
    WrapIsRemainder(a, n);
    WrapIsRemainder(b, n);
    Apart(a, b, n);
  }

  lemma {:induction false} WrapShift(a: nat, k: nat, n: nat)
    requires n > 0
    ensures Wrap(Wrap(a, n) + k, n) == Wrap(a + k, n)
  {
    if a >= n {
      WrapShift(a - n, k, n);
    }
  }

  /** The byte offset of the next slot of a ring of `n` slots, `m` bytes in all. */
  lemma NextOffset(i: nat, n: nat, e: nat, m: nat)
    requires i < n && e > 0 && m == Times(n, e)
    ensures m > 0 && (Times(i, e) + e) % m == Times(Wrap(i + 1, n), e)
  {
    TimesGrows(i, n, e);
    if i + 1 < n {
      TimesGrows(i + 1, n, e);
      assert Times(i + 1, e) == Times(i, e) + e;
    } else {
      assert Times(n, e) == Times(i, e) + e && Wrap(n, n) == 0;
    }
    WrapIsRemainder(Times(i, e) + e, m);
  }

  lemma Division(a: nat, e: nat)
    requires e > 0
    ensures Times(a / e, e) + a % e == a && a % e < e
  {
    DivMod(a, e);
    TimesIsProduct(a / e, e);
  }
}
