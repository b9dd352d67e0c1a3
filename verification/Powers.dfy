/** Powers of two, and the position of the highest bit set (the bsrl instruction, bsr of
    shared/div64.c). */
module Powers {

  function Pow2(n: nat): (r: nat)
    ensures r >= 1
  {
    if n == 0 then 1 else 2 * Pow2(n - 1)
  }

  /** floor(log2(n)). */
  function Bsr(n: nat): (k: nat)
    requires n > 0
    ensures Pow2(k) <= n < 2 * Pow2(k)
  {
    if n == 1 then 0 else 1 + Bsr(n / 2)
  }

  /** The contract of `Bsr` leaves no choice. */
  lemma {:induction false} BsrUnique(n: nat, k: nat)
    requires n > 0 && Pow2(k) <= n < 2 * Pow2(k)
    ensures k == Bsr(n)
  {
    var b := Bsr(n);
    if k < b { Pow2Croit(k + 1, b); }
    if b < k { Pow2Croit(b + 1, k); }
  }

  lemma {:induction false} Pow2Croit(a: nat, b: nat)
    requires a <= b
    ensures Pow2(a) <= Pow2(b)
    decreases b
  {
    if a < b { Pow2Croit(a, b - 1); }
  }

  lemma {:induction false} Pow2Produit(a: nat, b: nat)
    ensures Pow2(a + b) == Pow2(a) * Pow2(b)
  {
    if a > 0 {
      Pow2Produit(a - 1, b);
      Double(Pow2(a - 1), Pow2(b));
    }
  }

  lemma Double(x: nat, y: nat)
    ensures (2 * x) * y == 2 * (x * y)
  {
  }

  lemma Pow2Mots()
    ensures Pow2(31) == 0x8000_0000 && Pow2(32) == 0x1_0000_0000
  {
    assert Pow2(8) == 0x100;
    assert Pow2(16) == 0x1_0000;
    assert Pow2(24) == 0x100_0000;
  }
}
