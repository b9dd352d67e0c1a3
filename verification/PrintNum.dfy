/** The number printer of shared/doprnt.c (print_num) and the parsers of shared/strtoul.c and
    shared/strtol.c. */
module PrintNum {
  import opened Powers

  const M := 0x1_0000_0000
  const MAXBUF := 32

  // ----- Digits -----------------------------------------------------------------------------

  function Chiffre(d: nat): (c: char)
    requires d < 16
    ensures Valeur(c) == d
  {
    "0123456789abcdef"[d]
  }

  /** The value of a digit in the parsers, 99 for any other character. */
  function Valeur(c: char): nat {
    if '0' <= c <= '9' then c as nat - '0' as nat
    else if 'a' <= c <= 'z' then c as nat - 'a' as nat + 10
    else if 'A' <= c <= 'Z' then c as nat - 'A' as nat + 10
    else 99
  }

  function Quo(u: nat, base: nat): (q: nat)
    requires base >= 2
    ensures q <= u / 2 && (u < base <==> q == 0)
  {
    DivDef(u, base);
    u / base
  }

  function Reste(u: nat, base: nat): (r: nat)
    requires base >= 2
    ensures r < base && (u < base ==> r == u)
  {
    u % base
  }

  lemma DivDef(u: nat, base: nat)
    requires base >= 2
    ensures u / base <= u / 2 && (u < base <==> u / base == 0)
    ensures (u / base) * base + u % base == u
  {
    var q := u / base;
    assert q * base <= u;
    assert q * 2 <= q * base;
  }

  /** The digits of `u`, most significant first. */
  function Chiffres(u: nat, base: nat): (s: string)
    requires 2 <= base <= 16
    ensures |s| >= 1
    ensures forall i :: 0 <= i < |s| ==> Valeur(s[i]) < base
    decreases u
  {
    if u < base then [Chiffre(u)] else Chiffres(Quo(u, base), base) + [Chiffre(Reste(u, base))]
  }

  /** One step of Horner's rule. */
  function Suivant(v: int, base: nat, d: nat): (r: int)
    ensures v >= 0 ==> r >= 0
  {
    v * base + d
  }

  /** Horner's rule, as the parsers apply it. */
  function Lu(s: string, base: nat): nat {
    if s == [] then 0 else Suivant(Lu(s[..|s|-1], base), base, Valeur(s[|s|-1]))
  }

  lemma {:induction false} LuChiffres(u: nat, base: nat)
    requires 2 <= base <= 16
    ensures Lu(Chiffres(u, base), base) == u
    decreases u
  {
    hide Quo, Reste, Chiffre, Valeur;
    var s := Chiffres(u, base);
    if u < base {
      assert s[..0] == [];
      LuUn(s, base);
    } else {
      LuChiffres(Quo(u, base), base);
      assert s[..|s|-1] == Chiffres(Quo(u, base), base);
      Recompose(u, base);
    }
  }

  lemma LuUn(s: string, base: nat)
    requires |s| == 1
    ensures Lu(s, base) == Valeur(s[0])
  {
    assert s[..0] == [];
  }

  lemma Recompose(u: nat, base: nat)
    requires base >= 2
    ensures Quo(u, base) * base + Reste(u, base) == u
  {
    DivDef(u, base);
  }

  /** 32 cells hold the digits of any 32-bit number in any base. */
  lemma {:induction false} PasTropDeChiffres(u: nat, base: nat, k: nat)
    requires 2 <= base <= 16 && k >= 1 && u < Pow2(k)
    ensures |Chiffres(u, base)| <= k
    decreases u
  {
    hide Quo, Reste, Chiffre;
    if u >= base {
      assert Pow2(1) == 2;
      PasTropDeChiffres(Quo(u, base), base, k - 1);
    }
  }

  function Repete(c: char, n: int): (s: string)
    ensures |s| == (if n > 0 then n else 0) && forall i :: 0 <= i < |s| ==> s[i] == c
  {
    if n > 0 then seq(n, _ => c) else []
  }

  lemma {:induction false} LuZeros(n: nat, s: string, base: nat)
    ensures Lu(Repete('0', n) + s, base) == Lu(s, base)
    decreases |s|, n
  {
    var t := Repete('0', n) + s;
    if s != [] {
      assert t[..|t|-1] == Repete('0', n) + s[..|s|-1];
      LuZeros(n, s[..|s|-1], base);
    } else if n > 0 {
      assert t[..|t|-1] == Repete('0', n - 1) + [];
      LuZeros(n - 1, [], base);
    } else {
      assert t == [];
    }
  }

  // ----- print_num ------------------------------------------------------------------------------

  /** The conversion, once the flags have been read: `signe` has at most one character. */
  datatype Format = Format(signe: string, base: nat, largeur: int, prec: int, zero: bool, gauche: bool, alt: bool)

  predicate FormatValide(f: Format) {
    2 <= f.base <= 16 && (f.signe == "" || f.signe == "-" || f.signe == "+" || f.signe == " ")
  }

  function Prefixe(f: Format, u: nat): string {
    if u != 0 && f.alt then if f.base == 8 then "0" else if f.base == 16 then "0x" else "" else ""
  }

  function Max(a: int, b: int): int { if a >= b then a else b }

  /** Sign, prefix, zeros up to the precision, digits; padded with blanks on the left, with blanks
      on the right, or with zeros before the digits.  (A '0' flag wins over '-'.) */
  function Imprime(f: Format, u: nat): string
    requires FormatValide(f)
  {
    var d := Chiffres(u, f.base);
    var tete := f.signe + Prefixe(f, u);
    var zeros := Repete('0', f.prec - |d|);
    var vide := f.largeur - |tete| - |zeros| - |d|;
    if f.zero then tete + (zeros + Repete('0', vide)) + d
    else if f.gauche then tete + zeros + d + Repete(' ', vide)
    else Repete(' ', vide) + tete + zeros + d
  }

  /** The length printf promises. */
  lemma LongueurImprimee(f: Format, u: nat)
    requires FormatValide(f)
    ensures |Imprime(f, u)| == Max(f.largeur, |f.signe| + |Prefixe(f, u)| + Max(f.prec, |Chiffres(u, f.base)|))
  {
  }

  lemma {:induction false} ChiffresMinuscules(u: nat, base: nat)
    requires 2 <= base <= 16
    ensures forall c :: c in Chiffres(u, base) ==> '0' <= c <= '9' || 'a' <= c <= 'f'
    decreases u
  {
    if u >= base { ChiffresMinuscules(Quo(u, base), base); }
  }

  /** `o` is made of `avant` blanks, then `tete`, `zeros` zeros, `d`, and `fin` blanks. */
  predicate Page(o: string, avant: nat, tete: string, zeros: nat, d: string, fin: nat) {
    && |o| == avant + |tete| + zeros + |d| + fin
    && forall i :: 0 <= i < |o| ==>
         o[i] == if i < avant then ' ' else if i < avant + |tete| then tete[i - avant] else if i < avant + |tete| + zeros then '0'
                 else if i < avant + |tete| + zeros + |d| then d[i - avant - |tete| - zeros] else ' '
  }

  /** The output character by character: blanks in front, unless '-' or '0' was given; the sign; the
      prefix of a non-zero octal or hexadecimal number, if '#' was given; zeros up to the
      precision, and with '0' up to the width; the digits, in lower case; blanks behind, if '-' was
      given and '0' was not. */
  lemma MiseEnPage(f: Format, u: nat)
    requires FormatValide(f)
    ensures var d := Chiffres(u, f.base);
      var z := Max(f.prec - |d|, 0);
      var tete := f.signe + (if u == 0 || !f.alt then "" else if f.base == 8 then "0" else if f.base == 16 then "0x" else "");
      var vide := Max(f.largeur - |tete| - z - |d|, 0);
      && (forall c :: c in d ==> '0' <= c <= '9' || 'a' <= c <= 'f')
      && Page(Imprime(f, u), if f.zero || f.gauche then 0 else vide, tete, z + if f.zero then vide else 0, d,
              if f.gauche && !f.zero then vide else 0)
  {
    hide Chiffres, Imprime, Repete, Page;
    ChiffresMinuscules(u, f.base);
    var d := Chiffres(u, f.base);
    var z := Max(f.prec - |d|, 0);
    var tete := f.signe + (if u == 0 || !f.alt then "" else if f.base == 8 then "0" else if f.base == 16 then "0x" else "");
    var vide := Max(f.largeur - |tete| - z - |d|, 0);
    assert tete == f.signe + Prefixe(f, u);
    Alignement(f, u, tete, d, z, vide);
  }

  lemma Bandes(avant: nat, tete: string, zeros: nat, d: string, fin: nat)
    ensures Page(Repete(' ', avant) + tete + Repete('0', zeros) + d + Repete(' ', fin), avant, tete, zeros, d, fin)
  {
  }

  lemma Alignement(f: Format, u: nat, tete: string, d: string, z: nat, vide: nat)
    requires FormatValide(f) && tete == f.signe + Prefixe(f, u) && d == Chiffres(u, f.base)
    requires z == Max(f.prec - |d|, 0) && vide == Max(f.largeur - |tete| - z - |d|, 0)
    ensures Page(Imprime(f, u), if f.zero || f.gauche then 0 else vide, tete, z + if f.zero then vide else 0, d,
                 if f.gauche && !f.zero then vide else 0)
  {
    hide Chiffres, Prefixe, Page, Repete;
    Positif('0', f.prec - |d|, z);
    Positif('0', f.largeur - |tete| - z - |d|, vide);
    Positif(' ', f.largeur - |tete| - z - |d|, vide);
    assert |Repete('0', f.prec - |d|)| == z;
    if f.zero {
      Zeros(z, vide);
      Autour(tete + Repete('0', z + vide) + d);
      Bandes(0, tete, z + vide, d, 0);
    } else if f.gauche {
      Autour(tete + Repete('0', z) + d + Repete(' ', vide));
      Bandes(0, tete, z, d, vide);
    } else {
      Autour(Repete(' ', vide) + tete + Repete('0', z) + d);
      Bandes(vide, tete, z, d, 0);
    }
    Devanture(tete, Repete('0', z + vide), d);
    Devanture(tete, Repete('0', z), d);
  }

  lemma Positif(c: char, n: int, p: nat)
    requires p == Max(n, 0)
    ensures Repete(c, n) == Repete(c, p)
  {
  }

  lemma Zeros(z: nat, vide: nat)
    ensures Repete('0', z) + Repete('0', vide) == Repete('0', z + vide)
  {
  }

  lemma Autour(s: string)
    ensures s + Repete(' ', 0) == s
  {
  }

  lemma Devanture(tete: string, z: string, d: string)
    ensures Repete(' ', 0) + tete + z + d == tete + z + d
  {
  }

  /** The first loop of print_num fills the buffer backwards; it is never overrun. */
  method EcrireChiffres(buf: array<char>, valeur: nat, base: nat, precision: int) returns (p: int, prec: int)
    requires buf.Length == MAXBUF && 2 <= base <= 16 && valeur < M
    modifies buf
    ensures -1 <= p < MAXBUF && buf[p+1..] == Chiffres(valeur, base) && prec == precision - |Chiffres(valeur, base)|
  {
    hide Quo, Reste, Chiffre, Chiffres;
    p, prec := MAXBUF - 1, precision;
    var u := valeur;
    ghost var d := Chiffres(valeur, base);
    Pow2Mots();
    PasTropDeChiffres(valeur, base, 32);
    var encore := true;
    assert d + [] == d;
    while encore
      invariant -1 <= p < MAXBUF && prec == precision - (MAXBUF - 1 - p)
      invariant if encore then Chiffres(u, base) + buf[p+1..] == d else buf[p+1..] == d
      decreases encore, u
    {
      ghost var avant := buf[p+1..];
      assert |Chiffres(u, base)| + |avant| == |d|;
      buf[p] := Chiffre(Reste(u, base));
      assert buf[p..] == [Chiffre(Reste(u, base))] + avant;
      Raccorde(u, base, avant);
      p, prec := p - 1, prec - 1;
      u := Quo(u, base);
      encore := u != 0;
    }
  }

  lemma Raccorde(u: nat, base: nat, avant: string)
    requires 2 <= base <= 16
    ensures Chiffres(u, base) + avant ==
      (if u < base then [] else Chiffres(Quo(u, base), base)) + ([Chiffre(Reste(u, base))] + avant)
  {
  }

  /** The print_num section of _doprnt. */
  method PrintNum(f: Format, valeur: nat) returns (out: string)
    requires FormatValide(f) && valeur < M
    ensures out == Imprime(f, valeur)
  {
    hide Chiffres, Repete, Imprime;
    var buf := new char[MAXBUF];
    var prefix := if valeur != 0 && f.alt then if f.base == 8 then "0" else if f.base == 16 then "0x" else "" else "";
    var p, prec := EcrireChiffres(buf, valeur, f.base, f.prec);
    ghost var d := Chiffres(valeur, f.base);
    assert |buf[p+1..]| == |d|;
    var length := f.largeur - (MAXBUF - 1 - p);
    length := length - |f.signe|;
    length := length - |prefix|;
    if prec > 0 {
      length := length - prec;
    }
    ghost var vide := length;
    out, length := AvantChiffres(f, prefix, prec, length);
    out := Copier(out, buf, p + 1);
    if f.gauche {
      out := Remplir(out, ' ', length);
    }
    Assembler(f, valeur, vide, out);
  }

  /** Blanks, sign, prefix, zeros; once padding has been put out the length is cleared. */
  method AvantChiffres(f: Format, prefix: string, prec: int, longueur: int) returns (out: string, length: int)
    ensures out == Devant(f, prefix, prec, longueur)
    ensures length == if f.zero || !f.gauche then -1 else longueur
  {
    hide Repete;
    length := longueur;
    out := "";
    if !f.zero && !f.gauche {
      out := Remplir(out, ' ', length);
      length := -1;
    }
    assert out == if f.zero || f.gauche then "" else "" + Repete(' ', longueur);
    out := out + f.signe;
    out := out + prefix;
    out := Remplir(out, '0', prec);
    if f.zero {
      out := Remplir(out, '0', length);
      length := -1;
    }
  }

  function Devant(f: Format, prefix: string, prec: int, n: int): string {
    var s := (if f.zero || f.gauche then "" else "" + Repete(' ', n)) + f.signe + prefix + Repete('0', prec);
    if f.zero then s + Repete('0', n) else s
  }

  /** The digits, from the first written cell to the end of the buffer. */
  method Copier(avant: string, buf: array<char>, debut: nat) returns (out: string)
    requires debut <= buf.Length
    ensures out == avant + buf[debut..]
  {
    out := avant;
    var q := debut;
    assert buf[debut..debut] == [];
    while q < buf.Length
      invariant debut <= q <= buf.Length && out == avant + buf[debut..q]
    {
      assert buf[debut..q+1] == buf[debut..q] + [buf[q]];
      out := out + [buf[q]];
      q := q + 1;
    }
    assert buf[debut..buf.Length] == buf[debut..];
  }

  /** The pieces, in the order in which the code puts them out. */
  lemma Assembler(f: Format, u: nat, n: int, out: string)
    requires FormatValide(f)
    requires var d, z := Chiffres(u, f.base), Repete('0', f.prec - |Chiffres(u, f.base)|);
      && n == f.largeur - |d| - |f.signe| - |Prefixe(f, u)| - |z|
      && var s := Devant(f, Prefixe(f, u), f.prec - |d|, n) + d;
        out == if f.gauche then s + Repete(' ', if f.zero then -1 else n) else s
    ensures out == Imprime(f, u)
  {
    hide Chiffres, Prefixe, Repete;
    assert Repete(' ', -1) == "" by { Compte(' ', -1); }
    var d, z := Chiffres(u, f.base), Repete('0', f.prec - |Chiffres(u, f.base)|);
    Pieces(f.signe, Prefixe(f, u), z, if f.zero then Repete('0', n) else Repete(' ', n), d);
  }

  lemma Pieces(sg: string, pre: string, z: string, n: string, d: string)
    ensures "" + sg + pre + z + n + d + "" == (sg + pre) + (z + n) + d
    ensures "" + sg + pre + z + d + n == (sg + pre) + z + d + n
    ensures "" + n + sg + pre + z + d == n + (sg + pre) + z + d
  {
  }

  /** The padding loops: the count is decremented before it is tested. */
  method Remplir(avant: string, c: char, n: int) returns (out: string)
    ensures out == avant + Repete(c, n)
  {
    out := avant;
    var reste, fait := n, 0;
    assert avant + Repete(c, 0) == avant;
    while reste - 1 >= 0
      invariant out == avant + Repete(c, fait) && fait == Max(n, 0) - Max(reste, 0) && reste <= n
      decreases reste
    {
      reste := reste - 1;
      assert Repete(c, fait + 1) == Repete(c, fait) + [c];
      out := out + [c];
      fait := fait + 1;
    }
    assert Repete(c, fait) == Repete(c, n);
  }

  // ----- The parsers --------------------------------------------------------------------------------

  /** Character `i` of a null-terminated string. */
  function C(s: string, i: nat): char {
    if i < |s| then s[i] else '\0'
  }

  predicate Blanc(c: char) {
    c == ' ' || c == '\n' || c == '\r' || c == '\t' || c == 0x0B as char || c == 0x0C as char
  }

  /** The first character from `i` on that is not a blank. */
  function Blancs(s: string, i: nat): (j: nat)
    ensures i <= j && (i <= |s| ==> j <= |s|)
    ensures !Blanc(C(s, j)) && forall k :: i <= k < j ==> Blanc(C(s, k))
    decreases |s| - i
  {
    if i < |s| && Blanc(s[i]) then Blancs(s, i + 1) else i
  }

  predicate Hexa(s: string, i: nat, base: nat) {
    (base == 16 || base == 0) && C(s, i) == '0' && (C(s, i + 1) == 'x' || C(s, i + 1) == 'X')
  }

  function BaseEffective(s: string, i: nat, base: nat): nat {
    if Hexa(s, i, base) then 16
    else if base == 0 then if C(s, i) == '0' then 8 else 10
    else base
  }

  function Debut(s: string, i: nat, base: nat): nat {
    if Hexa(s, i, base) then i + 2 else i
  }

  /** The end of the digits of base `b` that begin at `i`. */
  function Fin(s: string, i: nat, b: nat): (j: nat)
    requires i <= |s|
    ensures i <= j <= |s| && (forall k :: i <= k < j ==> Valeur(s[k]) < b) && (j < |s| ==> Valeur(s[j]) >= b)
    decreases |s| - i
  {
    if i < |s| && Valeur(s[i]) < b then Fin(s, i + 1, b) else i
  }

  /** The contract of `Fin` leaves no choice. */
  lemma {:induction false} FinUnique(s: string, i: nat, b: nat, j: nat)
    requires i <= j <= |s| && (forall k :: i <= k < j ==> Valeur(s[k]) < b) && (j < |s| ==> Valeur(s[j]) >= b)
    ensures j == Fin(s, i, b)
    decreases |s| - i
  {
    if i < j { FinUnique(s, i + 1, b, j); }
  }

  /** The number at `i`, and where it ends. */
  function Nombre(s: string, i: nat, base: nat): (r: (nat, nat))
    requires i <= |s|
  {
    var b, d := BaseEffective(s, i, base), Debut(s, i, base);
    assert d <= |s|;
    (Lu(s[d..Fin(s, d, b)], b), Fin(s, d, b))
  }

  /** An unsigned long. */
  function Mot(x: int): nat { x % M }

  /** A long, in two's complement. */
  function Long(x: int): int {
    if x % M >= M / 2 then x % M - M else x % M
  }

  lemma HornerMot(v: nat, b: nat, d: nat)
    ensures Mot(Suivant(Mot(v), b, d)) == Mot(Suivant(v, b, d))
  {
    var q := v / M;
    assert v == M * q + v % M;
    Distribue(q, v % M, b);
    Decale(Mot(v) * b + d, q * b);
  }

  lemma HornerLong(v: int, b: nat, d: nat)
    ensures Long(Suivant(Long(v), b, d)) == Long(Suivant(v, b, d))
  {
    var q := (v - Long(v)) / M;
    assert v == M * q + Long(v);
    Distribue(q, Long(v), b);
    Decale(Long(v) * b + d, q * b);
  }

  lemma Distribue(q: int, x: int, b: int)
    ensures (M * q + x) * b == M * (q * b) + x * b
  {
  }

  lemma Decale(x: int, t: int)
    ensures (x + M * t) % M == x % M
  {
  }

  /** The loop over the leading blanks. */
  method SauterBlancs(s: string) returns (p: nat)
    ensures p == Blancs(s, 0) && p <= |s|
  {
    p := 0;
    while Blanc(C(s, p))
      invariant p <= |s| && Blancs(s, p) == Blancs(s, 0)
      decreases |s| - p
    {
      p := p + 1;
    }
  }

  /** The prefix "0x", and base 0. */
  method LireBase(s: string, i: nat, base: nat) returns (p: nat, b: nat)
    requires i <= |s|
    ensures p == Debut(s, i, base) && b == BaseEffective(s, i, base) && p <= |s|
  {
    p, b := i, base;
    if (base == 16 || base == 0) && C(s, p) == '0' && (C(s, p + 1) == 'x' || C(s, p + 1) == 'X') {
      p := p + 2;
      b := 16;
    }
    if b == 0 {
      b := if C(s, p) == '0' then 8 else 10;
    }
  }

  /** The digit loop of strtoul. */
  method ChiffresMot(s: string, d: nat, b: nat) returns (v: nat, p: nat)
    requires d <= |s|
    ensures p == Fin(s, d, b) && v == Mot(Lu(s[d..p], b))
  {
    hide Suivant, Valeur, Mot;
    v, p := Mot(0), d;
    assert s[d..d] == [];
    while p < |s| && Valeur(s[p]) < b
      invariant d <= p <= |s| && Fin(s, p, b) == Fin(s, d, b) && v == Mot(Lu(s[d..p], b))
    {
      assert s[d..p+1][..p-d] == s[d..p];
      HornerMot(Lu(s[d..p], b), b, Valeur(s[p]));
      v := Mot(Suivant(v, b, Valeur(s[p])));
      p := p + 1;
    }
  }

  /** The digit loop of strtol. */
  method ChiffresLong(s: string, d: nat, b: nat) returns (v: int, p: nat)
    requires d <= |s|
    ensures p == Fin(s, d, b) && v == Long(Lu(s[d..p], b))
  {
    hide Suivant, Valeur, Long;
    v, p := Long(0), d;
    assert s[d..d] == [];
    while p < |s| && Valeur(s[p]) < b
      invariant d <= p <= |s| && Fin(s, p, b) == Fin(s, d, b) && v == Long(Lu(s[d..p], b))
    {
      assert s[d..p+1][..p-d] == s[d..p];
      HornerLong(Lu(s[d..p], b), b, Valeur(s[p]));
      v := Long(Suivant(v, b, Valeur(s[p])));
      p := p + 1;
    }
  }

  /** strtoul */
  method Strtoul(s: string, base: nat) returns (v: nat, fin: nat)
    ensures v == Mot(Nombre(s, Blancs(s, 0), base).0) && fin == Nombre(s, Blancs(s, 0), base).1
  {
    var i := SauterBlancs(s);
    var p, b := LireBase(s, i, base);
    v, fin := ChiffresMot(s, p, b);
  }

  /** strtol: a '-' is skipped, a '+' is recognized but not skipped. */
  function LongLu(s: string, base: nat): (r: (int, nat)) {
    var i := Blancs(s, 0);
    var neg := C(s, i) == '-';
    var (n, j) := Nombre(s, if neg then i + 1 else i, base);
    (if neg then Long(-Long(n)) else Long(n), j)
  }

  method Strtol(s: string, base: nat) returns (v: int, fin: nat)
    ensures (v, fin) == LongLu(s, base)
  {
    hide Long, Lu;
    var isNeg := false;
    var i := SauterBlancs(s);
    if C(s, i) == '-' {
      isNeg := true;
      i := i + 1;
    } else if C(s, i) == '+' {
      isNeg := false;
    }
    var p, b := LireBase(s, i, base);
    v, fin := ChiffresLong(s, p, b);
    if isNeg {
      v := Long(-v);
    }
  }

  // ----- Reading back what was printed -----------------------------------------------------------------

  /** What may follow a printed number. */
  predicate Separe(suite: string) {
    suite == "" || Valeur(suite[0]) == 99
  }

  /** A number printed at `i`: an optional prefix, zeros, the digits of `u`, then something else. */
  ghost predicate Ecrit(s: string, i: nat, f: Format, u: nat, fin: nat)
    requires FormatValide(f)
  {
    exists z: nat :: EcritAvec(s, i, f, u, fin, z)
  }

  predicate EcritAvec(s: string, i: nat, f: Format, u: nat, fin: nat, z: nat)
    requires FormatValide(f)
  {
    && i <= fin <= |s| && s[i..fin] == Prefixe(f, u) + Repete('0', z) + Chiffres(u, f.base)
    && (fin < |s| ==> Valeur(s[fin]) == 99)
  }

  /** The parsers read a printed number back, whatever its prefix, precision and zero padding. */
  lemma NombreEcrit(s: string, i: nat, f: Format, u: nat, fin: nat)
    requires FormatValide(f) && Ecrit(s, i, f, u, fin)
    ensures Nombre(s, i, f.base) == (u, fin)
  {
    hide Repete, Chiffres, Lu, Fin, BaseEffective, Debut, Hexa;
    var z: nat :| EcritAvec(s, i, f, u, fin, z);
    var pre := Prefixe(f, u);
    if pre == "0x" {
      AvecX(s, i, f, u, fin, z);
      ChiffresLus(s, i + 2, f.base, u, fin, z, "");
    } else {
      PasDeX(s, i, f, u, fin, z);
      ChiffresLus(s, i, f.base, u, fin, z, pre);
    }
  }

  /** The prefix "0x" is recognized and skipped. */
  lemma AvecX(s: string, i: nat, f: Format, u: nat, fin: nat, z: nat)
    requires FormatValide(f) && EcritAvec(s, i, f, u, fin, z) && Prefixe(f, u) == "0x"
    ensures BaseEffective(s, i, f.base) == f.base && Debut(s, i, f.base) == i + 2
    ensures i + 2 <= fin && s[i+2..fin] == "" + Repete('0', z) + Chiffres(u, f.base)
  {
    hide Repete, Chiffres;
    var t, r, d := s[i..fin], Repete('0', z), Chiffres(u, f.base);
    assert t == "0x" + r + d;
    assert |d| >= 1 && |t| == 2 + |r| + |d|;
    assert s[i] == t[0] && s[i+1] == t[1];
    assert s[i+2..fin] == t[2..];
    Retire2("0x", r, d);
  }

  lemma Retire2(x: string, r: string, d: string)
    requires |x| == 2
    ensures (x + r + d)[2..] == "" + r + d
  {
  }

  /** A printed number without the prefix "0x" is not mistaken for one with it. */
  lemma PasDeX(s: string, i: nat, f: Format, u: nat, fin: nat, z: nat)
    requires FormatValide(f) && EcritAvec(s, i, f, u, fin, z) && Prefixe(f, u) != "0x"
    ensures !Hexa(s, i, f.base) && BaseEffective(s, i, f.base) == f.base && Debut(s, i, f.base) == i
  {
    hide Repete, Chiffres;
    var t := s[i..fin];
    assert t == Prefixe(f, u) + Repete('0', z) + Chiffres(u, f.base);
    if f.base == 16 && i + 1 < |s| {
      assert Prefixe(f, u) == "";
      if i + 1 < fin {
        ToutChiffre(f.base, u, z, t, 1);
        assert t[1] == s[i+1];
      } else {
        assert fin == i + 1;
      }
    }
  }

  lemma ToutChiffre(base: nat, u: nat, z: nat, t: string, k: nat)
    requires 2 <= base <= 16 && k < |t| && t == Repete('0', z) + Chiffres(u, base)
    ensures Valeur(t[k]) < base
  {
    if k >= z { assert t[k] == Chiffres(u, base)[k-z]; }
  }

  lemma ChiffresLus(s: string, i: nat, base: nat, u: nat, fin: nat, z: nat, pre: string)
    requires 2 <= base <= 16 && i <= fin <= |s| && (pre == "" || pre == "0")
    requires s[i..fin] == pre + Repete('0', z) + Chiffres(u, base)
    requires fin < |s| ==> Valeur(s[fin]) == 99
    ensures fin == Fin(s, i, base) && Lu(s[i..fin], base) == u
  {
    var y := z + |pre|;
    assert pre + Repete('0', z) == Repete('0', y);
    var t := s[i..fin];
    forall k | i <= k < fin ensures Valeur(s[k]) < base {
      ToutChiffre(base, u, y, t, k - i);
      assert s[k] == t[k-i];
    }
    FinUnique(s, i, base, fin);
    LuZeros(y, Chiffres(u, base), base);
    LuChiffres(u, base);
  }

  /** After the number, nothing but padding and what follows. */
  predicate Consomme(imprime: string, j: nat) {
    j <= |imprime| && forall i :: j <= i < |imprime| ==> imprime[i] == ' '
  }

  /** A negative count repeats nothing. */
  lemma Compte(c: char, n: int)
    ensures Repete(c, n) == Repete(c, if n > 0 then n else 0) && Repete(c, 0) == ""
  {
  }

  lemma Ensemble(c: char, m: nat, n: nat)
    ensures Repete(c, m) + Repete(c, n) == Repete(c, m + n)
  {
  }

  lemma Regroupe(b: string, sg: string, pre: string, z: string, d: string, a: string)
    ensures b + (sg + pre) + z + d + a == b + sg + (pre + z + d) + a
    ensures b == "" ==> b + (sg + pre) + z + d + a == (sg + pre) + z + d + a
    ensures a == "" ==> b + (sg + pre) + z + d + a == b + (sg + pre) + z + d
  {
  }

  /** The output, cut in four: blanks, the sign, the number, blanks. */
  lemma Decoupe(f: Format, u: nat) returns (k: nat, z: nat, apres: string)
    requires FormatValide(f)
    ensures Imprime(f, u) == Repete(' ', k) + f.signe + (Prefixe(f, u) + Repete('0', z) + Chiffres(u, f.base)) + apres
    ensures forall i :: 0 <= i < |apres| ==> apres[i] == ' '
  {
    hide Chiffres, Prefixe, Repete;
    var d, pre := Chiffres(u, f.base), Prefixe(f, u);
    var zeros := Repete('0', f.prec - |d|);
    var vide := f.largeur - |f.signe + pre| - |zeros| - |d|;
    var v: nat := if vide > 0 then vide else 0;
    Compte('0', f.prec - |d|);
    Compte(' ', vide);
    if f.zero {
      k, z, apres := 0, |zeros| + v, "";
      Compte('0', vide);
      Ensemble('0', |zeros|, v);
      Regroupe("", f.signe, pre, Repete('0', z), d, "");
    } else if f.gauche {
      k, z, apres := 0, |zeros|, Repete(' ', vide);
      Regroupe("", f.signe, pre, zeros, d, apres);
    } else {
      k, z, apres := v, |zeros|, "";
      Regroupe(Repete(' ', v), f.signe, pre, zeros, d, "");
    }
    Compte(' ', 0);
  }

  lemma Morceaux(a: string, b: string, c: string, d: string, suite: string)
    ensures var s := a + b + c + d + suite;
      && s[|a|..|a|+|b|] == b && s[|a|+|b|..|a|+|b|+|c|] == c
      && (forall j :: 0 <= j < |a| ==> s[j] == a[j])
      && (|a|+|b|+|c| < |s| ==> s[|a|+|b|+|c|] == (d + suite)[0])
  {
  }

  lemma Queue(a: string, b: string, c: string, d: string)
    requires forall i :: 0 <= i < |d| ==> d[i] == ' '
    ensures Consomme(a + b + c + d, |a| + |b| + |c|)
  {
  }

  lemma ApresSepare(apres: string, suite: string)
    requires Separe(suite) && forall i :: 0 <= i < |apres| ==> apres[i] == ' '
    ensures Separe(apres + suite)
  {
  }

  /** The sign begins at k, after blanks, and the number follows it. */
  ghost predicate Situe(s: string, f: Format, u: nat, k: nat, fin: nat)
    requires FormatValide(f)
  {
    && k + |f.signe| <= |s| && (forall j :: 0 <= j < k ==> s[j] == ' ')
    && s[k..k+|f.signe|] == f.signe && Ecrit(s, k + |f.signe|, f, u, fin)
  }

  lemma SitueDans(f: Format, u: nat, k: nat, z: nat, corps: string, apres: string, suite: string)
    requires FormatValide(f) && corps == Prefixe(f, u) + Repete('0', z) + Chiffres(u, f.base) && Separe(apres + suite)
    ensures Situe(Repete(' ', k) + f.signe + corps + apres + suite, f, u, k, k + |f.signe| + |corps|)
  {
    hide Chiffres, Prefixe, Valeur;
    var s := Repete(' ', k) + f.signe + corps + apres + suite;
    Morceaux(Repete(' ', k), f.signe, corps, apres, suite);
    assert EcritAvec(s, k + |f.signe|, f, u, k + |f.signe| + |corps|, z);
  }

  /** Where the number sits in the output of print_num. */
  lemma OuEcrit(f: Format, u: nat, suite: string) returns (k: nat, fin: nat)
    requires FormatValide(f) && Separe(suite)
    ensures Situe(Imprime(f, u) + suite, f, u, k, fin) && Consomme(Imprime(f, u), fin)
  {
    hide Chiffres, Imprime, Prefixe, Valeur, Consomme, Situe, Separe;
    var z, apres;
    k, z, apres := Decoupe(f, u);
    var corps := Prefixe(f, u) + Repete('0', z) + Chiffres(u, f.base);
    Queue(Repete(' ', k), f.signe, corps, apres);
    ApresSepare(apres, suite);
    SitueDans(f, u, k, z, corps, apres, suite);
    fin := k + |f.signe| + |corps|;
  }

  lemma {:induction false} BlancsUnique(s: string, i: nat, j: nat)
    requires i <= j <= |s| && (forall k :: i <= k < j ==> s[k] == ' ') && !Blanc(C(s, j))
    ensures Blancs(s, i) == j
    decreases j - i
  {
    if i < j { BlancsUnique(s, i + 1, j); }
  }

  lemma PremierChiffre(s: string, i: nat, f: Format, u: nat, fin: nat)
    requires FormatValide(f) && Ecrit(s, i, f, u, fin)
    ensures i < fin <= |s| && !Blanc(s[i]) && s[i] != '-' && s[i] != '+'
  {
    var z: nat :| EcritAvec(s, i, f, u, fin, z);
    var d := Chiffres(u, f.base);
    var t := s[i..fin];
    assert t == Prefixe(f, u) + Repete('0', z) + d && |t| >= |d| >= 1;
    assert t[0] == s[i];
    assert t[0] == if Prefixe(f, u) != "" || z > 0 then '0' else d[0];
    assert Valeur(d[0]) < f.base;
  }

  /** strtoul reads back every 32-bit number print_num prints without a sign, in any base from 2 to
      16, whatever the width, precision, padding and prefix. */
  lemma AllerRetourNonSigne(f: Format, u: nat, suite: string)
    requires FormatValide(f) && f.signe == "" && u < M && Separe(suite)
    ensures var s := Imprime(f, u) + suite;
      Mot(Nombre(s, Blancs(s, 0), f.base).0) == u && Consomme(Imprime(f, u), Nombre(s, Blancs(s, 0), f.base).1)
  {
    hide Chiffres, Imprime, Ecrit, Nombre;
    var s := Imprime(f, u) + suite;
    var k, fin := OuEcrit(f, u, suite);
    PremierChiffre(s, k, f, u, fin);
    BlancsUnique(s, 0, k);
    NombreEcrit(s, k, f, u, fin);
  }

  function Absolu(n: int): nat { if n >= 0 then n else -n }

  /** The format once the sign of the number is known. */
  function AvecSigne(f: Format, n: int): Format {
    if n >= 0 then f else f.(signe := "-")
  }

  /** strtol reads back every long print_num prints with its sign, except a positive one printed
      with the '+' flag: the '+' is not skipped, so that 0 is read there; and it stops before the
      number exactly when a '+' was printed. */
  lemma AllerRetourSigne(f: Format, n: int, suite: string)
    requires FormatValide(f) && f.signe != "-" && -(M / 2) <= n < M / 2 && Separe(suite)
    ensures var s := Imprime(AvecSigne(f, n), Absolu(n));
      && (LongLu(s + suite, f.base).0 == n <==> !(f.signe == "+" && n > 0))
      && (Consomme(s, LongLu(s + suite, f.base).1) <==> !(f.signe == "+" && n >= 0))
  {
    hide Chiffres, Imprime, Ecrit, Nombre, Consomme, BaseEffective, Long, Separe, Blanc;
    LongDe(n);
    var g, u := AvecSigne(f, n), Absolu(n);
    var s := Imprime(g, u) + suite;
    var k, fin := OuEcrit(g, u, suite);
    var i := k + |g.signe|;
    PremierChiffre(s, i, g, u, fin);
    NombreEcrit(s, i, g, u, fin);
    SigneLu(s, k, g.signe);
    if g.signe == "+" {
      RienDePlus(s, k, f.base);
      PasConsomme(Imprime(g, u), suite, k, fin);
    }
  }

  lemma PasConsomme(imprime: string, suite: string, k: nat, fin: nat)
    requires k < fin && Consomme(imprime, fin) && (imprime + suite)[k] == '+'
    ensures !Consomme(imprime, k)
  {
    assert imprime[k] == '+';
  }

  lemma LongDe(n: int)
    requires -(M / 2) <= n < M / 2
    ensures Long(0) == 0 && (n >= 0 ==> Long(n) == n) && (n < 0 ==> Long(-Long(-n)) == n)
  {
  }

  /** The sign is where the blanks end, unless it is a blank itself. */
  lemma SigneLu(s: string, k: nat, signe: string)
    requires signe in ["", "-", "+", " "] && k + |signe| < |s| && s[k..k+|signe|] == signe
    requires (forall j :: 0 <= j < k ==> s[j] == ' ') && !Blanc(s[k + |signe|])
    ensures var i := Blancs(s, 0);
      && i == (if signe == " " then k + 1 else k)
      && ((signe == "-" || signe == "+") ==> s[i] == signe[0])
  {
    if signe != "" { assert s[k] == s[k..k+1][0]; }
    BlancsUnique(s, 0, if signe == " " then k + 1 else k);
  }

  lemma RienDePlus(s: string, k: nat, base: nat)
    requires k < |s| && s[k] == '+' && 2 <= base <= 16
    ensures Nombre(s, k, base) == (0, k)
  {
    assert s[k..k] == [];
  }

  /** Each digit at least doubles what has been accumulated. */
  lemma {:induction false} LuPrefixe(s: string, base: nat, j: nat)
    requires base >= 2 && j < |s|
    ensures 2 * Lu(s[..j], base) <= Lu(s, base)
    decreases |s|
  {
    hide Valeur;
    AuMoinsDouble(Lu(s[..|s|-1], base), base);
    if j < |s| - 1 {
      LuPrefixe(s[..|s|-1], base, j);
      assert s[..|s|-1][..j] == s[..j];
    }
  }

  lemma AuMoinsDouble(v: nat, base: nat)
    requires base >= 2
    ensures 2 * v <= v * base
  {
  }

  /** Reading the digits of a long back, after any number of zeros: whatever prefix has been read,
      the accumulated value is in the range of a long, except at the last digit of -2^31, where
      2^31 wraps to -2^31 before the sign is changed. */
  lemma SansDebordement(n: int, base: nat, z: nat, j: nat)
    requires -(M / 2) <= n < M / 2 && 2 <= base <= 16
    requires j <= |Repete('0', z) + Chiffres(Absolu(n), base)|
    ensures var s := Repete('0', z) + Chiffres(Absolu(n), base);
      Long(Lu(s[..j], base)) == Lu(s[..j], base) <==> !(n == -(M / 2) && j == |s|)
  {
    hide Chiffres, Lu, Repete;
    var s := Repete('0', z) + Chiffres(Absolu(n), base);
    LuZeros(z, Chiffres(Absolu(n), base), base);
    LuChiffres(Absolu(n), base);
    if j < |s| {
      LuPrefixe(s, base, j);
    } else {
      assert s[..j] == s;
    }
  }
}
