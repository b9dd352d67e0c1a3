/** 64-bit division by estimate and correction (shared/div64.c), and the shift-and-subtract
    division of user/test.c. */
module Div64 {
  import opened Powers

  const MOT := 0x1_0000_0000
  const DOUBLE_MOT := 0x1_0000_0000_0000_0000

  /** What divl makes of edx:eax and a divisor; the divide error when the quotient does not fit. */
  datatype Division = Resultat(q: nat, r: nat) | Faute

  function Divl(haut: nat, bas: nat, d: nat): Division {
    if d == 0 || (haut * MOT + bas) / d >= MOT then Faute
    else Resultat((haut * MOT + bas) / d, (haut * MOT + bas) % d)
  }

  /** The shift that brings the highest bit of y down to bit 31. */
  function Decalage(y: nat): (l: nat)
    requires MOT <= y < DOUBLE_MOT
    ensures 1 <= l <= 32
  {
    BsrBorne(y / MOT, 32);
    Bsr(y / MOT) + 1
  }

  /** The 32 leading bits of y. */
  function Tete(y: nat): nat
    requires MOT <= y < DOUBLE_MOT
  {
    y / Pow2(Decalage(y))
  }

  lemma BsrBorne(n: nat, k: nat)
    requires 0 < n < MOT && k == 32
    ensures Bsr(n) < k
  {
    Pow2Mots();
    if Bsr(n) >= 32 { Pow2Croit(32, Bsr(n)); }
  }

  /** shrd then the test of bit 5: a 64-bit number shifted right by 1 to 32 places. */
  lemma TeteBornee(y: nat)
    requires MOT <= y < DOUBLE_MOT
    ensures MOT / 2 <= Tete(y) < MOT
  {
    var y1, l := y / MOT, Decalage(y);
    var p := Pow2(l - 1);
    assert Pow2(l) == 2 * p && p <= y1 < 2 * p;
    assert y >= y1 * MOT && y < (y1 + 1) * MOT;
    ProduitCroit(p, y1, MOT);
    ProduitCroit(y1 + 1, 2 * p, MOT);
    assert (MOT / 2) * (2 * p) == p * MOT;
    QuotientMinore(y, 2 * p, MOT / 2);
    QuotientMajore(y, 2 * p, MOT);
  }

  lemma ProduitCroit(a: nat, b: nat, c: nat)
    requires a <= b
    ensures a * c <= b * c
  {
  }

  lemma ProduitStrict(a: nat, b: nat, c: nat)
    requires a * c < b * c
    ensures a < b
  {
    if b <= a { ProduitCroit(b, a, c); }
  }

  lemma DivDef(a: nat, d: nat)
    requires d > 0
    ensures a == (a / d) * d + a % d && a % d < d && a < (a / d + 1) * d && (a / d) * d <= a
  {
    assert (a / d + 1) * d == (a / d) * d + d;
  }

  lemma QuotientMinore(a: nat, d: nat, m: nat)
    requires d > 0 && m * d <= a
    ensures m <= a / d
  {
    DivDef(a, d);
    ProduitStrict(m, a / d + 1, d);
  }

  lemma QuotientMajore(a: nat, d: nat, m: nat)
    requires d > 0 && a < m * d
    ensures a / d < m
  {
    DivInf(a, d);
    Majore(a, d, a / d, m);
  }

  lemma DivInf(a: nat, d: nat)
    requires d > 0
    ensures (a / d) * d <= a
  {
    DivDef(a, d);
  }

  lemma Majore(a: nat, d: nat, q: nat, m: nat)
    requires q * d <= a < m * d
    ensures q < m
  {
    ProduitStrict(q, m, d);
  }

  /** Euclidean division has one answer. */
  lemma DivUnique(a: nat, d: nat, q: nat, r: nat)
    requires d > 0 && a == q * d + r && r < d
    ensures a / d == q && a % d == r
  {
    QuotientMinore(a, d, q);
    assert (q + 1) * d == q * d + d;
    QuotientMajore(a, d, q + 1);
    DivDef(a, d);
  }

  // ----- Products kept opaque to the solver where only their order matters

  /** a * b, by repeated addition. */
  function Produit(a: nat, b: nat): nat {
    if a == 0 then 0 else Produit(a - 1, b) + b
  }

  lemma {:induction false} ProduitDef(a: nat, b: nat)
    ensures Produit(a, b) == a * b == b * a
  {
    if a > 0 {
      ProduitDef(a - 1, b);
      assert (a - 1) * b == a * b - b;
    }
  }

  function Quo(a: nat, d: nat): (q: nat)
    requires d > 0
  {
    a / d
  }

  lemma Encadre(a: nat, d: nat)
    requires d > 0
    ensures Produit(Quo(a, d), d) <= a < Produit(Quo(a, d) + 1, d)
  {
    hide Produit, Quo;
    var q := Quo(a, d);
    QuoDef(a, d);
    ProduitDef(q, d);
    ProduitDef(q + 1, d);
  }

  lemma QuoDef(a: nat, d: nat)
    requires d > 0
    ensures Quo(a, d) * d <= a < (Quo(a, d) + 1) * d
  {
    DivDef(a, d);
  }

  // ----- The estimate ------------------------------------------------------------------------

  /** The first divl: dividing the shifted x by one more than the leading bits of y cannot
      overflow, and falls short of the quotient by at most 2. */
  lemma Estimation(x: nat, y: nat)
    requires x < DOUBLE_MOT && MOT <= y < DOUBLE_MOT && Tete(y) + 1 < MOT
    ensures var xs := Quo(x, Pow2(Decalage(y)));
      var q := Quo(xs, Tete(y) + 1);
      && Quo(xs, MOT) < Tete(y) + 1 && q < MOT
      && Produit(q, y) <= x < Produit(q + 3, y)
  {
    hide Produit, Tete, Pow2, Quo;
    TeteBornee(y);
    TeteDef(y);
    var p, Y := Pow2(Decalage(y)), Tete(y);
    XBorne(x, p, Y);
    Encadre(x, p);
    Encadre(y, p);
    Encadre(Quo(x, p), Y + 1);
    Encadrement(x, y, p, Quo(Quo(x, p), Y + 1), Quo(x, p), Y);
  }

  lemma TeteDef(y: nat)
    requires MOT <= y < DOUBLE_MOT
    ensures Tete(y) == Quo(y, Pow2(Decalage(y))) && Pow2(Decalage(y)) == 2 * Pow2(Decalage(y) - 1)
  {
  }

  lemma Encadrement(x: nat, y: nat, p: nat, q: nat, X: nat, Y: nat)
    requires p > 0 && Produit(X, p) <= x < Produit(X + 1, p) && Produit(Y, p) <= y < Produit(Y + 1, p)
    requires Produit(q, Y + 1) <= X < Produit(q + 1, Y + 1) && q < MOT && Y >= MOT / 2
    ensures Produit(q, y) <= x < Produit(q + 3, y)
  {
    ProduitDef(X, p);
    ProduitDef(X + 1, p);
    ProduitDef(Y, p);
    ProduitDef(Y + 1, p);
    ProduitDef(q, Y + 1);
    ProduitDef(q + 1, Y + 1);
    Dessous(x, y, p, q, X, Y);
    Dessus(x, y, p, q, X, Y);
    ProduitDef(q, y);
    ProduitDef(q + 3, y);
  }

  lemma XBorne(x: nat, p: nat, Y: nat)
    requires x < DOUBLE_MOT && p >= 2 && MOT / 2 <= Y < MOT
    ensures Quo(Quo(x, p), MOT) < Y + 1 && Quo(Quo(x, p), Y + 1) < MOT
  {
    ProduitCroit(2, p, DOUBLE_MOT / 2);
    QuotientMajore(x, p, DOUBLE_MOT / 2);
    QuotientMajore(x / p, MOT, MOT / 2);
    ProduitCroit(MOT / 2, Y + 1, MOT);
    QuotientMajore(x / p, Y + 1, MOT);
  }

  lemma Dessous(x: nat, y: nat, p: nat, q: nat, X: nat, Y: nat)
    requires p > 0 && X * p <= x && y < (Y + 1) * p && q * (Y + 1) <= X
    ensures q * y <= x
  {
    calc {
      q * y;
      <= { ProduitCroit(y, (Y + 1) * p, q); assert y * q == q * y; assert ((Y + 1) * p) * q == q * ((Y + 1) * p); }
      q * ((Y + 1) * p);
      == { Associe(q, Y + 1, p); }
      (q * (Y + 1)) * p;
      <= { ProduitCroit(q * (Y + 1), X, p); }
      X * p;
    }
  }

  lemma Associe(a: int, b: int, c: int)
    ensures a * (b * c) == (a * b) * c
  {
  }

  lemma Dessus(x: nat, y: nat, p: nat, q: nat, X: nat, Y: nat)
    requires p > 0 && x < (X + 1) * p && Y * p <= y && X < (q + 1) * (Y + 1) && q < MOT && Y >= MOT / 2
    ensures x < (q + 3) * y
  {
    assert (q + 1) * (Y + 1) <= (q + 3) * Y by {
      assert (q + 1) * (Y + 1) == q * Y + q + Y + 1;
      assert (q + 3) * Y == q * Y + 3 * Y;
    }
    calc {
      (X + 1) * p;
      <= { ProduitCroit(X + 1, (q + 3) * Y, p); }
      ((q + 3) * Y) * p;
      == { Associe(q + 3, Y, p); }
      (q + 3) * (Y * p);
      <= { ProduitCroit(Y * p, y, q + 3); assert (Y * p) * (q + 3) == (q + 3) * (Y * p); assert y * (q + 3) == (q + 3) * y; }
      (q + 3) * y;
    }
  }

  /** y >= 2^32 with its 32 leading bits all ones: `y0 + 1` wraps to 0 there. */
  predicate ToutUns(y: nat) {
    MOT <= y < DOUBLE_MOT && Tete(y) == MOT - 1
  }

  /** The quotient and remainder of x by y, and the code's own convention for y = 0. */
  function Exacte(x: nat, y: nat): Division {
    if y == 0 then Resultat(0, x) else Resultat(x / y, x % y)
  }

  /** do_div64.  Registers are 32 bits wide and products 64: every wrap-around is written out,
      and none happens but the one of `y0 + 1`. */
  method DoDiv64(x: nat, y: nat) returns (d: Division, tours: nat)
    requires x < DOUBLE_MOT && y < DOUBLE_MOT
    ensures if ToutUns(y) then d == Faute else d == Exacte(x, y)
    ensures tours <= 2
  {
    tours := 0;
    var y1, y0 := y / MOT, y % MOT;
    var x1, x0 := x / MOT, x % MOT;
    if y1 != 0 {
      d := Estimer(x, y);
      if d != Faute {
        d, tours := Corriger(x, y, d.q);
      }
    } else if x1 < y0 {
      SansDebordement(x1, x0, y0);
      d := Divl(x1, x0, y0);
    } else if y0 != 0 {
      var d1 := Divl(0, x1, y0);
      QuotientMajore(x1, y0, MOT);
      SansDebordement(x1 % y0, x0, y0);
      var d2 := Divl(d1.r, x0, y0);
      DeuxEtages(x1, x0, y0);
      d := Resultat(d1.q * MOT + d2.q, d2.r);
    } else {
      d := Resultat(0, x);
    }
  }

  /** The shifts and the divl of the first case. */
  method Estimer(x: nat, y: nat) returns (d: Division)
    requires x < DOUBLE_MOT && MOT <= y < DOUBLE_MOT
    ensures d == Faute <==> ToutUns(y)
    ensures d != Faute ==> d.q < MOT && Produit(d.q, y) <= x < Produit(d.q + 3, y)
  {
    hide Produit, Pow2, Tete, Quo;
    var y1, y0 := y / MOT, y % MOT;
    var l := Bsr(y1) + 1;
    DecalageDef(y);
    TeteBornee(y);
    TeteDef(y);
    y0 := Quo(y, Pow2(l)) % MOT;
    var xs := Quo(x, Pow2(l));
    var x1, x0 := xs / MOT, xs % MOT;
    if y0 + 1 < MOT {
      Estimation(x, y);
      QuoMot(xs, y0 + 1);
    }
    d := Divl(x1, x0, (y0 + 1) % MOT);
  }

  lemma DecalageDef(y: nat)
    requires MOT <= y < DOUBLE_MOT
    ensures Decalage(y) == Bsr(y / MOT) + 1
  {
  }

  lemma QuoMot(a: nat, d: nat)
    requires d > 0
    ensures Quo(a, MOT) == a / MOT && Quo(a, d) == a / d
  {
  }

  /** The correction loop. */
  method Corriger(x: nat, y: nat, q: nat) returns (d: Division, tours: nat)
    requires x < DOUBLE_MOT && MOT <= y < DOUBLE_MOT && q < MOT && Produit(q, y) <= x < Produit(q + 3, y)
    ensures d == Exacte(x, y) && tours <= 2
  {
    hide Produit;
    var x0 := q;
    var r := (x - y * x0 % DOUBLE_MOT) % DOUBLE_MOT;
    Reste(x, y, q, r);
    tours := 0;
    while r >= y
      invariant x0 == q + tours && tours <= 2 && 0 <= r < Produit(3 - tours, y) && x == Produit(x0, y) + r
      decreases r
    {
      PlusUn(x0, y);
      TroisFois(y);
      Borne(x0 + 1, y, x);
      x0 := (x0 + 1) % MOT;
      tours := tours + 1;
      r := r - y;
    }
    ProduitDef(x0, y);
    DivUnique(x, y, x0, r);
    d := Resultat(x0, r);
  }

  lemma Reste(x: nat, y: nat, q: nat, r: int)
    requires x < DOUBLE_MOT && 0 < y && Produit(q, y) <= x < Produit(q + 3, y)
    requires r == (x - y * q % DOUBLE_MOT) % DOUBLE_MOT
    ensures 0 <= r < Produit(3, y) && x == Produit(q, y) + r
  {
    ProduitDef(q, y);
    TroisFois(y);
    assert Produit(q + 3, y) == Produit(q, y) + 3 * y by {
      PlusUn(q, y);
      PlusUn(q + 1, y);
      PlusUn(q + 2, y);
    }
  }

  lemma PlusUn(a: nat, y: nat)
    ensures Produit(a + 1, y) == Produit(a, y) + y
  {
  }

  lemma TroisFois(y: nat)
    ensures Produit(0, y) == 0 && Produit(1, y) == y && Produit(2, y) == 2 * y && Produit(3, y) == 3 * y
  {
    PlusUn(0, y);
    PlusUn(1, y);
    PlusUn(2, y);
  }

  /** The corrected quotient still fits in 32 bits. */
  lemma Borne(a: nat, y: nat, x: nat)
    requires y >= MOT && x < DOUBLE_MOT
    ensures Produit(a, y) <= x ==> a < MOT
  {
    ProduitDef(a, y);
    if a >= MOT { ProduitCroit(MOT, a, y); }
  }

  lemma SansDebordement(haut: nat, bas: nat, d: nat)
    requires haut < d && bas < MOT
    ensures (haut * MOT + bas) / d < MOT
  {
    ProduitCroit(haut + 1, d, MOT);
    assert (haut + 1) * MOT == haut * MOT + MOT;
    QuotientMajore(haut * MOT + bas, d, MOT);
  }

  /** Schoolbook division of two words by one. */
  lemma DeuxEtages(x1: nat, x0: nat, y: nat)
    requires y > 0
    ensures var q1, r1 := x1 / y, x1 % y;
      var q2, r2 := (r1 * MOT + x0) / y, (r1 * MOT + x0) % y;
      (x1 * MOT + x0) / y == q1 * MOT + q2 && (x1 * MOT + x0) % y == r2
  {
    var q1, r1 := x1 / y, x1 % y;
    var q2, r2 := (r1 * MOT + x0) / y, (r1 * MOT + x0) % y;
    DivDef(x1, y);
    DivDef(r1 * MOT + x0, y);
    Etages(x1, x0, y, q1, r1, q2, r2);
    DivUnique(x1 * MOT + x0, y, q1 * MOT + q2, r2);
  }

  lemma Etages(x1: nat, x0: nat, y: nat, q1: nat, r1: nat, q2: nat, r2: nat)
    requires x1 == q1 * y + r1 && r1 * MOT + x0 == q2 * y + r2
    ensures x1 * MOT + x0 == (q1 * MOT + q2) * y + r2
  {
    var z := q1 * y;
    assert (q1 * MOT + q2) * y == z * MOT + q2 * y;
  }

  // ----- The shift-and-subtract division of user/test.c -------------------------------------------

  method DivParSoustraction(x: nat, diviseur: nat) returns (q: nat, rem: nat)
    requires x < DOUBLE_MOT && diviseur < DOUBLE_MOT
    ensures Resultat(q, rem) == Exacte(x, diviseur)
  {
    hide Produit;
    if diviseur > x || diviseur == 0 {
      if diviseur > x { DivUnique(x, diviseur, 0, x); }
      return 0, x;
    }
    var div, mul := diviseur, 1;
    ghost var e: nat := 0;
    TroisFois(diviseur);
    while div < DOUBLE_MOT / 2
      invariant 0 < div <= x && mul == Pow2(e) && div == Produit(mul, diviseur)
      invariant div < DOUBLE_MOT
      decreases DOUBLE_MOT - div
    {
      var newd := (div + div) % DOUBLE_MOT;
      if newd > x {
        break;
      }
      Somme(mul, mul, diviseur);
      div, mul, e := newd, mul + mul, e + 1;
    }
    q := mul;
    rem := x - div;
    while true
      invariant 0 < div && mul == Pow2(e) && div == Produit(mul, diviseur) && 0 <= rem < div && x == Produit(q, diviseur) + rem
      decreases e
    {
      if mul / 2 == 0 {
        TroisFois(diviseur);
        ProduitDef(q, diviseur);
        DivUnique(x, diviseur, q, rem);
        return q, rem;
      }
      Somme(Pow2(e - 1), Pow2(e - 1), diviseur);
      mul := mul / 2;
      div := div / 2;
      e := e - 1;
      if rem >= div {
        Somme(q, mul, diviseur);
        q := q + mul;
        rem := rem - div;
      }
    }
  }

  lemma {:induction false} Somme(a: nat, b: nat, y: nat)
    ensures Produit(a + b, y) == Produit(a, y) + Produit(b, y)
  {
    if b > 0 { Somme(a, b - 1, y); }
  }

  /** The two divisions agree on every x and y on which do_div64 does not fault. */
  method Comparer(x: nat, y: nat) returns (accord: bool)
    requires x < DOUBLE_MOT && y < DOUBLE_MOT
    ensures accord <==> !ToutUns(y)
  {
    var d, _ := DoDiv64(x, y);
    var q, r := DivParSoustraction(x, y);
    accord := d == Resultat(q, r);
  }

  /** The exception is real: 2^33 - 1 divided by itself. */
  lemma UneFaute()
    ensures ToutUns(0x1_ffff_ffff)
  {
    assert Bsr(1) == 0 && Pow2(1) == 2;
  }
}
