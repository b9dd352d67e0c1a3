/** Sizes and bins of shared/malloc.c.h (dlmalloc 2.7.2, 4-byte words). */
module MallocBins {
  import opened Powers

  const MOT := 0x1_0000_0000
  const SIZE_SZ := 4
  const MINSIZE := 16
  const NBINS := 96
  const NSMALLBINS := 32
  const MIN_LARGE_SIZE := 256
  const MAX_FAST := 72   // request2size(DEFAULT_MXFAST)

  /** request2size: room for the size word, rounded up to 8, at least 16. */
  function Request2Size(req: nat): (nb: nat)
    requires req < MOT - 2 * MINSIZE
    ensures nb >= MINSIZE && nb % 8 == 0 && req + SIZE_SZ <= nb < MOT - MINSIZE
    ensures nb > MINSIZE ==> nb - 8 < req + SIZE_SZ
  {
    if req + SIZE_SZ + 7 < MINSIZE then MINSIZE
    else
      var huit := (req + SIZE_SZ + 7) / 8;
      assert 8 * huit <= req + 11 < 8 * huit + 8;
      var nb := 8 * huit;
      assert nb % 8 == 0;
      assert nb >= MINSIZE;
      assert req + SIZE_SZ <= nb;
      assert nb < MOT - MINSIZE;
      nb
  }

  /** sysmalloc calls malloc again with a request that pads to the same size.  It does so only
      for the small sizes; for the largest one, 2^32 - 24, the request would be out of range. */
  lemma RequestAgain(nb: nat)
    requires nb % 8 == 0 && MINSIZE <= nb < MOT - MINSIZE
    ensures nb - 7 < MOT - 2 * MINSIZE <==> nb != MOT - 24
    ensures nb != MOT - 24 ==> Request2Size(nb - 7) == nb
  {
    var huit := nb / 8;
    assert nb == 8 * huit;
  }

  function LargeBinIndex(sz: nat): nat {
    var x := sz / 256;
    if x >= 0x10000 then NBINS - 1
    else if x == 0 then NSMALLBINS
    else
      var m := Bsr(x);
      NSMALLBINS + 4 * m + sz / Pow2(m + 6) % 4
  }

  function BinIndex(sz: nat): nat {
    if sz < MIN_LARGE_SIZE then sz / 8 else LargeBinIndex(sz)
  }

  /** Within one power of two, the four bins split the range evenly. */
  lemma LargeQuart(sz: nat)
    requires MIN_LARGE_SIZE <= sz && sz / 256 < 0x10000
    ensures var m := Bsr(sz / 256);
      && m <= 15 && 4 <= sz / Pow2(m + 6) < 8
      && LargeBinIndex(sz) == NSMALLBINS + 4 * m + sz / Pow2(m + 6) - 4
  {
    var m := Bsr(sz / 256);
    assert Pow2(16) == 0x10000;
    if m >= 16 { Pow2Croit(16, m); }
    Pow2Produit(m, 8);
    Pow2Produit(m, 6);
    assert Pow2(8) == 256 && Pow2(6) == 64;
    Quart(sz, Pow2(m));
    var q := sz / Pow2(m + 6);
    assert q % 4 == q - 4;
  }

  lemma Quart(sz: nat, p: nat)
    requires p > 0 && p <= sz / 256 < 2 * p
    ensures 4 <= sz / (p * 64) < 8
  {
    var d := p * 64;
    var q := sz / d;
    DivEncadre(sz, d);
    if q < 4 { Fois(q + 1, 4, d); }
    if q >= 8 { Fois(8, q, d); }
  }

  lemma DivEncadre(a: nat, d: nat)
    requires d > 0
    ensures (a / d) * d <= a < (a / d + 1) * d
  {
    assert a == (a / d) * d + a % d;
    assert (a / d + 1) * d == (a / d) * d + d;
  }

  lemma Fois(a: nat, b: nat, d: nat)
    requires a <= b
    ensures a * d <= b * d
  {
  }

  lemma DivCroit(a: nat, b: nat, d: nat)
    requires a <= b && d > 0
    ensures a / d <= b / d
  {
    DivEncadre(a, d);
    DivEncadre(b, d);
    if b / d < a / d { Fois(b / d + 1, a / d, d); }
  }

  /** bin_index never leaves the array of bins, and never touches bins 0 and 1. */
  lemma BinIndexBorne(sz: nat)
    requires sz >= MINSIZE
    ensures 2 <= BinIndex(sz) < NBINS
    ensures sz < MIN_LARGE_SIZE <==> BinIndex(sz) < NSMALLBINS
  {
    if sz >= MIN_LARGE_SIZE && sz / 256 < 0x10000 { LargeQuart(sz); }
  }

  /** bin_index is monotone: best fit needs only to look upwards. */
  lemma BinIndexMonotone(a: nat, b: nat)
    requires MINSIZE <= a <= b
    ensures BinIndex(a) <= BinIndex(b)
  {
    BinIndexBorne(a);
    BinIndexBorne(b);
    if a >= MIN_LARGE_SIZE && b / 256 < 0x10000 {
      LargeQuart(a);
      LargeQuart(b);
      var m, n := Bsr(a / 256), Bsr(b / 256);
      if n < m { Pow2Croit(n + 1, m); }
      if m == n { DivCroit(a, b, Pow2(m + 6)); }
    }
  }

  /** Small bins hold one size each. */
  lemma PetitBac(a: nat, b: nat)
    requires a % 8 == 0 && b % 8 == 0 && a >= MINSIZE && b >= MINSIZE && BinIndex(a) == BinIndex(b) < NSMALLBINS
    ensures a == b
  {
    BinIndexBorne(a);
    BinIndexBorne(b);
  }

  /** The branch-free alternative to bsrl finds the highest set bit of every x in 1 .. 2^16 - 1. */
  function SansBranche(x: bv32): bv32 {
    var n := ((x - 0x100) >> 16) & 8;
    var x1 := x << n;
    var m1 := ((x1 - 0x1000) >> 16) & 4;
    var n1 := n + m1;
    var x2 := x1 << m1;
    var m2 := ((x2 - 0x4000) >> 16) & 2;
    var n2 := n1 + m2;
    var x3 := (x2 << m2) >> 14;
    13 - n2 + (x3 & !(x3 >> 1))
  }

  /** m is the place of the highest bit of n, spelled out. */
  predicate BitHaut(n: int, m: int) {
    && (1 <= n < 2 ==> m == 0)
    && (2 <= n < 4 ==> m == 1)
    && (4 <= n < 8 ==> m == 2)
    && (8 <= n < 16 ==> m == 3)
    && (16 <= n < 32 ==> m == 4)
    && (32 <= n < 64 ==> m == 5)
    && (64 <= n < 128 ==> m == 6)
    && (128 <= n < 256 ==> m == 7)
    && (256 <= n < 512 ==> m == 8)
    && (512 <= n < 1024 ==> m == 9)
    && (1024 <= n < 2048 ==> m == 10)
    && (2048 <= n < 4096 ==> m == 11)
    && (4096 <= n < 8192 ==> m == 12)
    && (8192 <= n < 16384 ==> m == 13)
    && (16384 <= n < 32768 ==> m == 14)
    && (32768 <= n < 65536 ==> m == 15)
  }

  lemma BitHautBsr(n: nat, m: int)
    requires 0 < n < 65536 && BitHaut(n, m)
    ensures m == Bsr(n)
  {
    hide Bsr, Pow2;
    Puissances();
    if 1 <= n < 2 { BsrUnique(n, 0); }
    if 2 <= n < 4 { BsrUnique(n, 1); }
    if 4 <= n < 8 { BsrUnique(n, 2); }
    if 8 <= n < 16 { BsrUnique(n, 3); }
    if 16 <= n < 32 { BsrUnique(n, 4); }
    if 32 <= n < 64 { BsrUnique(n, 5); }
    if 64 <= n < 128 { BsrUnique(n, 6); }
    if 128 <= n < 256 { BsrUnique(n, 7); }
    if 256 <= n < 512 { BsrUnique(n, 8); }
    if 512 <= n < 1024 { BsrUnique(n, 9); }
    if 1024 <= n < 2048 { BsrUnique(n, 10); }
    if 2048 <= n < 4096 { BsrUnique(n, 11); }
    if 4096 <= n < 8192 { BsrUnique(n, 12); }
    if 8192 <= n < 16384 { BsrUnique(n, 13); }
    if 16384 <= n < 32768 { BsrUnique(n, 14); }
    if 32768 <= n < 65536 { BsrUnique(n, 15); }
  }

  lemma Puissances()
    ensures Pow2(0) == 1 && Pow2(1) == 2 && Pow2(2) == 4 && Pow2(3) == 8 && Pow2(4) == 16 && Pow2(5) == 32
    ensures Pow2(6) == 64 && Pow2(7) == 128 && Pow2(8) == 256 && Pow2(9) == 512 && Pow2(10) == 1024
    ensures Pow2(11) == 2048 && Pow2(12) == 4096 && Pow2(13) == 8192 && Pow2(14) == 16384 && Pow2(15) == 32768
  {
  }

  lemma SansBrancheHaut(x: bv32)
    requires 0 < x < 0x10000
    ensures 0 < x as int < 65536 && BitHaut(x as int, SansBranche(x) as int)
  {
    hide SansBranche, BitHaut;
    if x < 0x100 { PetitHaut(x); } else { GrandHaut(x); }
  }

  lemma PetitHaut(x: bv32)
    requires 0 < x < 0x100
    ensures 0 < x as int < 256 && BitHaut(x as int, SansBranche(x) as int)
  {
  }

  lemma GrandHaut(x: bv32)
    requires 0x100 <= x < 0x10000
    ensures 256 <= x as int < 65536 && BitHaut(x as int, SansBranche(x) as int)
  {
  }

  /** On every value largebin_index gives it, that is the bsrl of the other branch. */
  lemma SansBrancheBsr(x: bv32)
    requires 0 < x < 0x10000
    ensures 0 < x as int && SansBranche(x) as int == Bsr(x as int)
  {
    hide SansBranche, Bsr, BitHaut;
    SansBrancheHaut(x);
    BitHautBsr(x as int, SansBranche(x) as int);
  }

  // ----- The words of the binmap ------------------------------------------------------------------

  /** The word whose bits are `b`, least significant first. */
  function MotCarte(b: seq<bool>): (m: nat)
    ensures m == 0 <==> forall j :: 0 <= j < |b| ==> !b[j]
  {
    if b == [] then 0 else (if b[0] then 1 else 0) + 2 * MotCarte(b[1..])
  }

  /** `bit` after i shifts to the left: it drops out of the word after 32. */
  function Bit(i: nat): nat {
    if i == 0 then 1 else 2 * Bit(i - 1) % MOT
  }

  lemma {:induction false} BitDe(i: nat)
    requires i <= 32
    ensures Bit(i) == if i < 32 then Pow2(i) else 0
  {
    Pow2Mots();
    if i > 0 {
      BitDe(i - 1);
      if i < 32 { Pow2Croit(i, 31); }
    }
  }

  /** bit & map, for a word with one bit set. */
  predicate Allume(m: nat, bit: nat) {
    bit != 0 && m / bit % 2 == 1
  }

  lemma {:induction false} MotDepasse(b: seq<bool>, i: nat)
    requires i <= |b|
    ensures Pow2(i) > MotCarte(b) <==> forall j :: i <= j < |b| ==> !b[j]
  {
    if i == 0 {
    } else {
      MotDepasse(b[1..], i - 1);
      assert forall j :: i <= j < |b| ==> b[j] == b[1..][j - 1];
      assert forall j :: i - 1 <= j < |b| - 1 ==> b[1..][j] == b[j + 1];
    }
  }

  lemma {:induction false} MotBit(b: seq<bool>, i: nat)
    requires i < |b|
    ensures MotCarte(b) / Pow2(i) % 2 == 1 <==> b[i]
  {
    var q := MotCarte(b[1..]);
    if i > 0 {
      MotBit(b[1..], i - 1);
      Demi(if b[0] then 1 else 0, q, Pow2(i - 1));
    }
  }

  lemma Demi(x: nat, q: nat, p: nat)
    requires x <= 1 && p > 0
    ensures (x + 2 * q) / (2 * p) == q / p
  {
    var k, r := q / p, q % p;
    assert q == p * k + r;
    assert x + 2 * q == (2 * p) * k + (x + 2 * r);
    Quotient(x + 2 * q, 2 * p, k, x + 2 * r);
  }

  lemma Quotient(a: nat, d: nat, k: nat, r: nat)
    requires d > 0 && a == d * k + r && r < d
    ensures a / d == k
  {
    DivEncadre(a, d);
    if k < a / d { Fois(k + 1, a / d, d); }
    if a / d < k { Fois(a / d + 1, k, d); }
  }

  /** The test by which malloc leaves a word of the binmap says that it has no bit left. */
  lemma PlusDeBit(b: seq<bool>, i: nat)
    requires |b| == 32 && i <= 32
    ensures Bit(i) > MotCarte(b) || Bit(i) == 0 <==> forall j :: i <= j < 32 ==> !b[j]
    ensures i < 32 ==> (Allume(MotCarte(b), Bit(i)) <==> b[i])
  {
    BitDe(i);
    if i < 32 {
      MotDepasse(b, i);
      MotBit(b, i);
    }
  }
}
