/** The packet layer of kernel/gdb_serial.c: hex digits, and the run-length encoding of putfrags,
    undone by the rule of the Overview section of the GDB Remote Serial Protocol (Appendix E of
    the GDB manual). */
module GdbRle {

  newtype byte = x: int | 0 <= x < 256

  const ETOILE: byte := 42   // '*'
  const DIESE: byte := 35    // '#'
  const DOLLAR: byte := 36   // '$'
  const PLUS: byte := 43     // '+'

  /** hexchars[n] */
  function Chiffre(n: byte): (c: byte)
    requires n < 16
    ensures Valeur(c) == n as int && c != ETOILE && c != DIESE && c != DOLLAR
  {
    if n < 10 then 48 + n else 87 + n
  }

  /** hex, -1 for a character that is not a hexadecimal digit. */
  function Valeur(c: byte): (v: int)
    ensures -1 <= v < 16
  {
    if 48 <= c <= 57 then c as int - 48
    else if 97 <= c <= 102 then c as int - 97 + 10
    else if 65 <= c <= 70 then c as int - 65 + 10
    else -1
  }

  /** Two digits a byte. */
  function Hexa(d: seq<byte>): (h: seq<byte>)
    ensures |h| == 2 * |d|
  {
    if d == [] then [] else [Chiffre(d[0] / 16), Chiffre(d[0] % 16)] + Hexa(d[1..])
  }

  // ----- hex2bin --------------------------------------------------------------------------------

  predicate Lisible(h: seq<byte>) {
    forall i :: 0 <= i < |h| ==> Valeur(h[i]) >= 0
  }

  /** `d` is what the digits of `h` stand for. */
  predicate Lit(h: seq<byte>, d: seq<byte>) {
    |h| >= 2 * |d| && forall i :: 0 <= i < |d| ==> d[i] as int == 16 * Valeur(h[2*i]) + Valeur(h[2*i+1])
  }

  /** hex2bin: it succeeds exactly on hexadecimal digits, and then the result is the one string
      of bytes the digits stand for. */
  method Hex2bin(entree: seq<byte>, len: nat) returns (ok: bool, sortie: seq<byte>)
    requires |entree| >= 2 * len
    ensures ok <==> Lisible(entree[..2*len])
    ensures ok ==> Lit(entree, sortie) && |sortie| == len
  {
    sortie := [];
    var i := 0;
    while i < len
      invariant i <= len && |sortie| == i && Lisible(entree[..2*i])
      invariant forall k :: 0 <= k < i ==> sortie[k] as int == 16 * Valeur(entree[2*k]) + Valeur(entree[2*k+1])
    {
      var a, b := Valeur(entree[2*i]), Valeur(entree[2*i+1]);
      if a < 0 || b < 0 {
        assert entree[..2*len][if a < 0 then 2*i else 2*i+1] == entree[if a < 0 then 2*i else 2*i+1];
        return false, sortie;
      }
      sortie := sortie + [(16 * a + b) as byte];
      i := i + 1;
    }
    return true, sortie;
  }

  lemma {:induction false} HexaChiffres(d: seq<byte>, i: nat)
    requires i < |d|
    ensures Hexa(d)[2*i] == Chiffre(d[i] / 16) && Hexa(d)[2*i+1] == Chiffre(d[i] % 16)
  {
    if i > 0 {
      HexaChiffres(d[1..], i - 1);
      assert Hexa(d)[2*i] == Hexa(d[1..])[2*(i-1)] && Hexa(d)[2*i+1] == Hexa(d[1..])[2*(i-1)+1];
    }
  }

  /** Hexifying gives digits in lower case, and is undone by hex2bin: they are readable, and any string of bytes read from
      them is the original one. */
  lemma HexaAllerRetour(d: seq<byte>, sortie: seq<byte>)
    ensures forall c :: c in Hexa(d) ==> 48 <= c <= 57 || 97 <= c <= 102
    ensures Lisible(Hexa(d)) && Lit(Hexa(d), d)
    ensures |sortie| == |d| && Lit(Hexa(d), sortie) ==> sortie == d
  {
    hide Valeur, Chiffre, Hexa;
    HexaLisible(d);
    forall i | 0 <= i < |d| ensures d[i] as int == 16 * Valeur(Hexa(d)[2*i]) + Valeur(Hexa(d)[2*i+1]) {
      HexaChiffres(d, i);
      Compose(d[i]);
    }
    LitUnique(Hexa(d), d, sortie);
  }

  lemma Compose(b: byte)
    ensures b as int == 16 * Valeur(Chiffre(b / 16)) + Valeur(Chiffre(b % 16))
  {
  }

  lemma {:induction false} HexaLisible(d: seq<byte>)
    ensures Lisible(Hexa(d)) && forall c :: c in Hexa(d) ==> 48 <= c <= 57 || 97 <= c <= 102
  {
    if d != [] { HexaLisible(d[1..]); }
  }

  lemma LitUnique(h: seq<byte>, d: seq<byte>, e: seq<byte>)
    requires Lit(h, d)
    ensures |e| == |d| && Lit(h, e) ==> e == d
  {
    hide Valeur;
    if |e| == |d| && Lit(h, e) {
      forall i | 0 <= i < |d| ensures e[i] == d[i] {
        assert e[i] as int == d[i] as int;
      }
    }
  }

  // ----- The encoding -----------------------------------------------------------------------------

  /** One output character, or a run of at least four of it. */
  datatype Jeton = Seul(c: byte) | Suite(c: byte, n: nat)

  /** What is sent for a token: the run length n is sent as the character 29 + n - 1. */
  function Emis(j: Jeton): seq<byte> {
    match j
    case Seul(c) => [c]
    case Suite(c, n) => [c, ETOILE, ((28 + n) % 256) as byte]
  }

  function Repete(c: byte, n: nat): (r: seq<byte>)
    ensures |r| == n && forall i :: 0 <= i < n ==> r[i] == c
  {
    seq(n, _ => c)
  }

  /** What a token stands for. */
  function Sens(j: Jeton): seq<byte> {
    match j
    case Seul(c) => [c]
    case Suite(c, n) => Repete(c, n)
  }

  /** How many of the first `max` bytes are equal to the first one. */
  function Longueur(d: seq<byte>, c: byte, max: nat): (n: nat)
    ensures n <= |d| && n <= max
    ensures forall i :: 0 <= i < n ==> d[i] == c
    ensures n < |d| && n < max ==> d[n] != c
  {
    if d == [] || max == 0 || d[0] != c then 0 else 1 + Longueur(d[1..], c, max - 1)
  }

  /** The test of putfrags: four equal output characters at least. */
  predicate Longue(d: seq<byte>, hexa: bool)
    requires d != []
  {
    if hexa then |d| > 1 && d[1] == d[0] && d[0] / 16 == d[0] % 16
    else |d| > 3 && d[1] == d[0] && d[2] == d[0] && d[3] == d[0]
  }

  function Max(hexa: bool): nat { if hexa then 49 else 98 }

  /** What one turn of the loop of putfrags sends, and the bytes it consumes. */
  function Premiers(d: seq<byte>, hexa: bool): seq<Jeton>
    requires d != []
  {
    if Longue(d, hexa) then
      var n := Longueur(d, d[0], Max(hexa));
      if hexa then [Suite(Chiffre(d[0] % 16), 2 * n)] else [Suite(d[0], n)]
    else if hexa then [Seul(Chiffre(d[0] / 16)), Seul(Chiffre(d[0] % 16))]
    else [Seul(d[0])]
  }

  function Pris(d: seq<byte>, hexa: bool): (n: nat)
    requires d != []
    ensures 1 <= n <= |d|
  {
    if Longue(d, hexa) then (LongueurMin(d, hexa); Longueur(d, d[0], Max(hexa))) else 1
  }

  lemma LongueurMin(d: seq<byte>, hexa: bool)
    requires d != [] && Longue(d, hexa)
    ensures Longueur(d, d[0], Max(hexa)) >= if hexa then 2 else 4
  {
    var n := Longueur(d, d[0], Max(hexa));
    assert n < |d| && n < Max(hexa) ==> d[n] != d[0];
  }

  /** The contract of `Longueur` leaves no choice. */
  lemma {:induction false} LongueurUnique(d: seq<byte>, c: byte, max: nat, n: nat)
    requires n <= |d| && n <= max && (forall i :: 0 <= i < n ==> d[i] == c) && (n < |d| && n < max ==> d[n] != c)
    ensures n == Longueur(d, c, max)
  {
    if n > 0 { LongueurUnique(d[1..], c, max - 1, n - 1); }
  }

  /** The tokens of a fragment. */
  function Jetons(d: seq<byte>, hexa: bool): seq<Jeton>
    decreases |d|
  {
    if d == [] then [] else Premiers(d, hexa) + Jetons(d[Pris(d, hexa)..], hexa)
  }

  /** Every run is of 4 to 98 characters, of even length when hexified, and hexified data has no
      special character. */
  predicate Valable(j: Jeton, hexa: bool) {
    (j.Suite? ==> 4 <= j.n <= 98 && (hexa ==> j.n % 2 == 0))
    && (hexa ==> j.c != ETOILE && j.c != DIESE && j.c != DOLLAR)
  }

  ghost predicate Valables(js: seq<Jeton>, hexa: bool) {
    forall j :: j in js ==> Valable(j, hexa)
  }

  /** No character is a '*'. */
  ghost predicate Decodables(js: seq<Jeton>) {
    forall j :: j in js ==> j.c != ETOILE && (j.Suite? ==> 4 <= j.n <= 98)
  }

  lemma {:induction false} JetonsValables(d: seq<byte>, hexa: bool)
    ensures Valables(Jetons(d, hexa), hexa)
    ensures hexa || ETOILE !in d ==> Decodables(Jetons(d, hexa))
    decreases |d|
  {
    if d != [] {
      var n := Pris(d, hexa);
      JetonsValables(d[n..], hexa);
      if Longue(d, hexa) { LongueurMin(d, hexa); }
      assert d[0] in d;
      assert forall x :: x in d[n..] ==> x in d;
    }
  }

  function Envoi(js: seq<Jeton>): seq<byte> {
    if js == [] then [] else Emis(js[0]) + Envoi(js[1..])
  }

  lemma Associe(a: seq<byte>, b: seq<byte>, c: seq<byte>)
    ensures a + (b + c) == (a + b) + c
  {
  }

  lemma {:induction false} EnvoiSomme(a: seq<Jeton>, b: seq<Jeton>)
    ensures Envoi(a + b) == Envoi(a) + Envoi(b)
  {
    hide Emis;
    if a == [] {
      assert a + b == b;
    } else {
      EnvoiSomme(a[1..], b);
      assert (a + b)[1..] == a[1..] + b && (a + b)[0] == a[0];
      Associe(Emis(a[0]), Envoi(a[1..]), Envoi(b));
    }
  }

  function TousSens(js: seq<Jeton>): seq<byte> {
    if js == [] then [] else Sens(js[0]) + TousSens(js[1..])
  }

  lemma {:induction false} SensSomme(a: seq<Jeton>, b: seq<Jeton>)
    ensures TousSens(a + b) == TousSens(a) + TousSens(b)
  {
    hide Sens;
    if a == [] {
      assert a + b == b;
    } else {
      SensSomme(a[1..], b);
      assert (a + b)[1..] == a[1..] + b && (a + b)[0] == a[0];
      Associe(Sens(a[0]), TousSens(a[1..]), TousSens(b));
    }
  }

  /** What a fragment means: its bytes, or their hexadecimal digits. */
  function Contenu(d: seq<byte>, hexa: bool): seq<byte> {
    if hexa then Hexa(d) else d
  }

  lemma {:induction false} HexaRun(d: seq<byte>, n: nat)
    requires n <= |d| && d != [] && d[0] / 16 == d[0] % 16 && forall i :: 0 <= i < n ==> d[i] == d[0]
    ensures Hexa(d) == Repete(Chiffre(d[0] % 16), 2 * n) + Hexa(d[n..])
    decreases n
  {
    if n == 0 {
      assert d[0..] == d;
      assert Repete(Chiffre(d[0] % 16), 0) == [];
    } else if n == 1 {
      assert Repete(Chiffre(d[0] % 16), 2) == [Chiffre(d[0] / 16), Chiffre(d[0] % 16)];
    } else {
      HexaRun(d[1..], n - 1);
      assert d[1..][n-1..] == d[n..];
      assert Repete(Chiffre(d[0] % 16), 2 * n) ==
        [Chiffre(d[0] / 16), Chiffre(d[0] % 16)] + Repete(Chiffre(d[0] % 16), 2 * (n - 1));
    }
  }

  lemma PremiersFideles(d: seq<byte>, hexa: bool)
    requires d != []
    ensures TousSens(Premiers(d, hexa)) + Contenu(d[Pris(d, hexa)..], hexa) == Contenu(d, hexa)
  {
    var js, n := Premiers(d, hexa), Pris(d, hexa);
    UnOuDeux(js);
    if Longue(d, hexa) {
      if hexa { HexaRun(d, n); } else { assert Repete(d[0], n) == d[..n]; assert d == d[..n] + d[n..]; }
    }
  }

  lemma UnOuDeux(js: seq<Jeton>)
    ensures |js| == 1 ==> TousSens(js) == Sens(js[0])
    ensures |js| == 2 ==> TousSens(js) == Sens(js[0]) + Sens(js[1])
  {
    hide Sens;
    if |js| == 1 { assert js[1..] == []; assert Sens(js[0]) + [] == Sens(js[0]); }
    if |js| == 2 { assert js[1..][1..] == []; assert Sens(js[1]) + [] == Sens(js[1]); }
  }

  /** The tokens of a fragment stand for exactly what it contains. */
  lemma {:induction false} JetonsFideles(d: seq<byte>, hexa: bool)
    ensures TousSens(Jetons(d, hexa)) == Contenu(d, hexa)
    decreases |d|
  {
    hide Premiers, Pris, Contenu, TousSens;
    if d == [] {
      RienDedans(hexa);
    } else {
      var n := Pris(d, hexa);
      JetonsFideles(d[n..], hexa);
      PremiersFideles(d, hexa);
      SensSomme(Premiers(d, hexa), Jetons(d[n..], hexa));
    }
  }

  lemma RienDedans(hexa: bool)
    ensures TousSens([]) == [] == Contenu([], hexa)
  {
  }

  // ----- The decoder ------------------------------------------------------------------------------

  datatype Lecture = Lu(d: seq<byte>) | Mal

  function Suivi(a: seq<byte>, l: Lecture): Lecture {
    match l
    case Lu(d) => Lu(a + d)
    case Mal => Mal
  }

  /** A character followed by '*' and a count byte n stands for 1 + (n - 29) copies of itself; the
      count byte is taken whatever it is.  A '*' anywhere else, or without a count byte, is not
      allowed by the protocol. */
  function Decode(s: seq<byte>): Lecture
    decreases |s|
  {
    if s == [] then Lu([])
    else if s[0] == ETOILE then Mal
    else if |s| >= 2 && s[1] == ETOILE then
      if |s| == 2 then Mal
      else Suivi(Repete(s[0], if s[2] as int >= 28 then s[2] as int - 28 else 0), Decode(s[3..]))
    else Suivi([s[0]], Decode(s[1..]))
  }

  /** What has been decoded has no '*' left. */
  lemma {:induction false} SansEtoileDecodee(s: seq<byte>)
    ensures Decode(s).Lu? ==> ETOILE !in Decode(s).d
    decreases |s|
  {
    if s == [] || s[0] == ETOILE {
    } else if |s| >= 2 && s[1] == ETOILE {
      if |s| > 2 { SansEtoileDecodee(s[3..]); }
    } else {
      SansEtoileDecodee(s[1..]);
    }
  }

  lemma DecodeUn(s: seq<byte>)
    requires s != [] && s[0] != ETOILE && (|s| >= 2 ==> s[1] != ETOILE)
    ensures Decode(s) == Suivi([s[0]], Decode(s[1..]))
  {
  }

  lemma DecodeTrois(s: seq<byte>)
    requires |s| >= 3 && s[0] != ETOILE && s[1] == ETOILE && s[2] >= 28
    ensures Decode(s) == Suivi(Repete(s[0], s[2] as int - 28), Decode(s[3..]))
  {
  }

  lemma DecodeJeton(j: Jeton, reste: seq<byte>)
    requires j.c != ETOILE && (j.Suite? ==> 4 <= j.n <= 98) && (reste != [] ==> reste[0] != ETOILE)
    ensures Decode(Emis(j) + reste) == Suivi(Sens(j), Decode(reste))
  {
    hide Decode, Repete, Suivi;
    var s := Emis(j) + reste;
    match j {
      case Seul(c) =>
        assert s[1..] == reste;
        DecodeUn(s);
      case Suite(c, n) =>
        assert s[3..] == reste;
        assert s[2] as int == 28 + n;
        DecodeTrois(s);
    }
  }

  /** Decoding undoes sending, whatever tokens are sent, as long as no character is a '*'. */
  lemma {:induction false} DecodeEnvoi(js: seq<Jeton>)
    requires Decodables(js)
    ensures Decode(Envoi(js)) == Lu(TousSens(js))
    decreases |js|
  {
    hide Decode, Emis, Sens;
    if js == [] {
      RienADecoder();
    } else {
      assert js[0] in js && forall j :: j in js[1..] ==> j in js;
      DecodeEnvoi(js[1..]);
      EnvoiSansEtoile(js[1..]);
      DecodeJeton(js[0], Envoi(js[1..]));
    }
  }

  lemma RienADecoder()
    ensures Decode([]) == Lu([])
  {
  }

  lemma EnvoiSansEtoile(js: seq<Jeton>)
    requires Decodables(js)
    ensures Envoi(js) != [] ==> Envoi(js)[0] != ETOILE
  {
    if js != [] { assert js[0] in js && Envoi(js)[0] == js[0].c; }
  }

  // ----- A whole packet -----------------------------------------------------------------------------

  /** A fragment: `len` 0 stands for a string ended by a null byte. */
  datatype Fragment = Fragment(data: seq<byte>, len: nat, hexa: bool)

  predicate Bon(f: Fragment) {
    if f.len == 0 then 0 in f.data else f.len <= |f.data|
  }

  /** The bytes of a fragment. */
  function Octets(f: Fragment): (d: seq<byte>)
    requires Bon(f)
  {
    if f.len != 0 then f.data[..f.len] else f.data[..Nul(f.data)]
  }

  function Nul(d: seq<byte>): (n: nat)
    requires 0 in d
    ensures n < |d| && d[n] == 0 && forall i :: 0 <= i < n ==> d[i] != 0
  {
    if d[0] == 0 then 0 else 1 + Nul(d[1..])
  }

  ghost predicate Bons(fs: seq<Fragment>) {
    forall i :: 0 <= i < |fs| ==> Bon(fs[i])
  }

  function TousJetons(fs: seq<Fragment>): seq<Jeton>
    requires Bons(fs)
  {
    if fs == [] then [] else Jetons(Octets(fs[0]), fs[0].hexa) + TousJetons(fs[1..])
  }

  function TousContenus(fs: seq<Fragment>): seq<byte>
    requires Bons(fs)
  {
    if fs == [] then [] else Contenu(Octets(fs[0]), fs[0].hexa) + TousContenus(fs[1..])
  }

  /** No fragment that is sent as it is contains a '*'. */
  ghost predicate SansEtoile(fs: seq<Fragment>)
    requires Bons(fs)
  {
    forall i :: 0 <= i < |fs| && !fs[i].hexa ==> ETOILE !in Octets(fs[i])
  }

  lemma {:induction false} TousFideles(fs: seq<Fragment>)
    requires Bons(fs)
    ensures TousSens(TousJetons(fs)) == TousContenus(fs)
    ensures SansEtoile(fs) ==> Decodables(TousJetons(fs))
  {
    hide TousSens, Jetons, Contenu, Octets;
    if fs == [] {
      RienDedans(true);
    } else {
      var a, b := Jetons(Octets(fs[0]), fs[0].hexa), TousJetons(fs[1..]);
      TousFideles(fs[1..]);
      JetonsFideles(Octets(fs[0]), fs[0].hexa);
      JetonsValables(Octets(fs[0]), fs[0].hexa);
      SensSomme(a, b);
    }
  }

  /** The body of a packet. */
  function Corps(fs: seq<Fragment>): seq<byte>
    requires Bons(fs)
  {
    Envoi(TousJetons(fs))
  }

  lemma {:induction false} ContenusSansEtoile(fs: seq<Fragment>)
    requires Bons(fs)
    ensures ETOILE !in TousContenus(fs) <==> SansEtoile(fs)
  {
    hide Octets, Hexa;
    if fs != [] {
      var f, c := fs[0], Contenu(Octets(fs[0]), fs[0].hexa);
      ContenusSansEtoile(fs[1..]);
      HexaSansEtoile(Octets(f));
      SansEtoileTete(fs);
      assert ETOILE in TousContenus(fs) <==> ETOILE in c || ETOILE in TousContenus(fs[1..]);
    }
  }

  lemma SansEtoileTete(fs: seq<Fragment>)
    requires Bons(fs) && fs != []
    ensures SansEtoile(fs) <==> (fs[0].hexa || ETOILE !in Octets(fs[0])) && SansEtoile(fs[1..])
  {
    hide Octets;
    assert forall i :: 1 <= i < |fs| ==> fs[i] == fs[1..][i-1];
    assert forall i :: 0 <= i < |fs| - 1 ==> fs[1..][i] == fs[i+1];
  }

  lemma {:induction false} HexaSansEtoile(d: seq<byte>)
    ensures ETOILE !in Hexa(d)
  {
    if d != [] { HexaSansEtoile(d[1..]); }
  }

  /** Round trip: decoding the body gives back the contents of the fragments, two hex digits a byte
      for those that are hexified, the bytes themselves for the others, if and only if no
      fragment that is sent as it is contains a '*'. */
  lemma AllerRetour(fs: seq<Fragment>)
    requires Bons(fs)
    ensures Decode(Corps(fs)) == Lu(TousContenus(fs)) <==> SansEtoile(fs)
  {
    hide Decode, TousContenus, SansEtoile;
    TousFideles(fs);
    if SansEtoile(fs) { DecodeEnvoi(TousJetons(fs)); }
    SansEtoileDecodee(Corps(fs));
    ContenusSansEtoile(fs);
  }

  // ----- Reading hexified data back ---------------------------------------------------------------------

  function TousOctets(fs: seq<Fragment>): seq<byte>
    requires Bons(fs)
  {
    if fs == [] then [] else Octets(fs[0]) + TousOctets(fs[1..])
  }

  lemma {:induction false} HexaSomme(a: seq<byte>, b: seq<byte>)
    ensures Hexa(a + b) == Hexa(a) + Hexa(b)
  {
    if a == [] {
      assert a + b == b;
    } else {
      HexaSomme(a[1..], b);
      assert (a + b)[1..] == a[1..] + b && (a + b)[0] == a[0];
    }
  }

  lemma {:induction false} TousHexa(fs: seq<Fragment>)
    requires Bons(fs) && forall i :: 0 <= i < |fs| ==> fs[i].hexa
    ensures TousContenus(fs) == Hexa(TousOctets(fs))
  {
    hide Hexa, Octets;
    if fs == [] {
      RienDedans(true);
    } else {
      TousHexa(fs[1..]);
      HexaSomme(Octets(fs[0]), TousOctets(fs[1..]));
    }
  }

  /** The two ends together: what putfrags sends of hexified fragments, expanded by the rule of
      the protocol and given to hex2bin, is accepted and gives exactly their bytes. */
  method Relire(fs: seq<Fragment>) returns (ok: bool, sortie: seq<byte>)
    requires Bons(fs) && forall i :: 0 <= i < |fs| ==> fs[i].hexa
    ensures ok && sortie == TousOctets(fs)
  {
    hide Decode, Corps, Hexa, Lit, Lisible, TousOctets, TousContenus;
    AllerRetour(fs);
    TousHexa(fs);
    var h := Decode(Corps(fs)).d;
    ok, sortie := Hex2bin(h, |h| / 2);
    HexaAllerRetour(TousOctets(fs), sortie);
    assert h[..2 * (|h| / 2)] == h;
  }

  // ----- Which bytes appear in a body -----------------------------------------------------------------

  /** The token sends the byte x, other than '*'. */
  predicate Porte(j: Jeton, x: byte) {
    j.c == x || (j.Suite? && 28 + j.n == x as int)
  }

  lemma {:induction false} EnvoiContient(js: seq<Jeton>, x: byte)
    requires forall j :: j in js ==> j.Suite? ==> 4 <= j.n <= 98
    requires x != ETOILE
    ensures x in Envoi(js) <==> exists j :: j in js && Porte(j, x)
    decreases |js|
  {
    if js != [] {
      var e := js[0];
      assert e in js && forall j :: j in js <==> j == e || j in js[1..];
      EnvoiContient(js[1..], x);
      assert x in Emis(e) <==> Porte(e, x) by {
        if e.Suite? { assert Emis(e)[2] as int == 28 + e.n && Emis(e)[0] == e.c; } else { assert Emis(e)[0] == e.c; }
      }
    }
  }

  /** r equal bytes at i, between bytes that differ from them. */
  predicate Bloc(d: seq<byte>, i: nat, r: nat) {
    && 0 < r && i + r <= |d| && (forall k :: i <= k < i + r ==> d[k] == d[i])
    && (i > 0 ==> d[i-1] != d[i]) && (i + r < |d| ==> d[i+r] != d[i])
  }

  /** ... whose two digits are equal, so many that, taken 49 at a time, 4 remain. */
  predicate Huit(d: seq<byte>, i: nat, r: nat) {
    Bloc(d, i, r) && d[i] / 16 == d[i] % 16 && r % 49 == 4
  }

  ghost predicate Huits(d: seq<byte>) {
    exists i: nat, r: nat :: Huit(d, i, r)
  }

  /** The blocks of what follows n equal bytes are those of the whole, but for the first, which
      is n shorter if it goes on. */
  lemma BlocApres(d: seq<byte>, n: nat, i: nat, r: nat)
    requires 1 <= n <= |d| && forall k :: 0 <= k < n ==> d[k] == d[0]
    ensures Bloc(d, i, r) ==>
      if i > 0 then i >= n && Bloc(d[n..], i - n, r)
      else r == n || (r > n && d[n] == d[0] && Bloc(d[n..], 0, r - n))
  {
    BlocCoupe(d, n, i, r);
    if Bloc(d, i, r) {
      assert forall k :: 0 <= k < |d| - n ==> d[n..][k] == d[n + k];
    }
  }

  lemma BlocCoupe(d: seq<byte>, n: nat, i: nat, r: nat)
    requires 1 <= n <= |d| && forall k :: 0 <= k < n ==> d[k] == d[0]
    ensures 0 < i < n ==> !Bloc(d, i, r)
    ensures r < n ==> !Bloc(d, 0, r)
  {
  }

  lemma BlocAvant(d: seq<byte>, n: nat, i: nat, r: nat)
    requires 1 <= n <= |d| && forall k :: 0 <= k < n ==> d[k] == d[0]
    ensures Bloc(d[n..], i, r) ==> if i > 0 || d[n] != d[0] then Bloc(d, i + n, r) else Bloc(d, 0, n + r)
  {
    if Bloc(d[n..], i, r) {
      assert forall k :: n <= k < |d| ==> d[k] == d[n..][k - n];
      if i == 0 && d[n] == d[0] {
        assert forall k :: n <= k < n + r ==> d[k] == d[n..][0];
      }
    }
  }

  /** What one turn takes is a whole block, or 49 bytes of it, or one byte of a block that is never
      sent as a run. */
  lemma PrisBloc(d: seq<byte>)
    requires d != []
    ensures var n := Pris(d, true);
      && n <= 49 && (forall k :: 0 <= k < n ==> d[k] == d[0]) && (Longue(d, true) <==> n > 1)
      && (Longue(d, true) ==> d[0] / 16 == d[0] % 16)
      && (n < |d| && d[n] == d[0] ==> n == 49 || d[0] / 16 != d[0] % 16)
  {
    hide Longueur;
    if Longue(d, true) { LongueurMin(d, true); }
  }

  lemma HuitsSuivants(d: seq<byte>)
    requires d != []
    ensures Huits(d) <==> Huits(d[Pris(d, true)..]) || Pris(d, true) == 4
  {
    hide Pris, Longue, Bloc;
    PrisBloc(d);
    var n := Pris(d, true);
    if i: nat, r: nat :| Huit(d, i, r) {
      BlocApres(d, n, i, r);
      BlocDedans(d, i, r);
      if i > 0 {
        assert Huit(d[n..], i - n, r);
      } else if r > n {
        Reste49(r);
        assert Huit(d[n..], 0, r - n);
      }
    }
    if n == 4 {
      BlocEntier(d, n);
      assert Huit(d, 0, 4);
    }
    if i: nat, r: nat :| Huit(d[n..], i, r) {
      BlocAvant(d, n, i, r);
      BlocDedans(d[n..], i, r);
      Reste49(n + r);
      assert Huit(d, i + n, r) || Huit(d, 0, n + r);
    }
  }

  lemma Reste49(r: nat)
    ensures r >= 49 ==> (r - 49) % 49 == r % 49
    ensures r < 49 ==> r % 49 == r
  {
  }

  lemma BlocDedans(d: seq<byte>, i: nat, r: nat)
    requires Bloc(d, i, r)
    ensures r > 0 && i + r <= |d|
  {
  }

  lemma BlocEntier(d: seq<byte>, n: nat)
    requires 0 < n <= |d| && (forall k :: 0 <= k < n ==> d[k] == d[0]) && (n < |d| ==> d[n] != d[0])
    ensures Bloc(d, 0, n)
  {
  }

  lemma {:induction false} SuitesDeHuit(d: seq<byte>)
    ensures (exists j :: j in Jetons(d, true) && j.Suite? && j.n == 8) <==> Huits(d)
    decreases |d|
  {
    hide Huit, Pris, Longueur;
    if d == [] {
      RienDeHuit();
    } else {
      var n := Pris(d, true);
      SuitesDeHuit(d[n..]);
      HuitsSuivants(d);
      PremiersHuit(d);
    }
  }

  lemma RienDeHuit()
    ensures !Huits([])
  {
  }

  lemma PremiersHuit(d: seq<byte>)
    requires d != []
    ensures (exists j :: j in Premiers(d, true) && j.Suite? && j.n == 8) <==> Pris(d, true) == 4
  {
    hide Longueur;
    PrisBloc(d);
    if Longue(d, true) { assert Premiers(d, true)[0] in Premiers(d, true); }
  }

  /** The body of hexified data never contains the '#' that ends a packet.  It does contain the
      '$' that begins one exactly when a run of eight digits is sent: when the data has a longest
      block of r equal bytes with equal digits, r modulo 49 being 4.  The protocol asks senders
      to avoid that count, putfrags does not. */
  lemma HexaSansDiese(d: seq<byte>)
    ensures DIESE !in Envoi(Jetons(d, true))
    ensures DOLLAR in Envoi(Jetons(d, true)) <==> Huits(d)
  {
    JetonsValables(d, true);
    SuitesDeHuit(d);
    var js := Jetons(d, true);
    assert forall j :: j in js ==> Valable(j, true);
    EnvoiContient(js, DIESE);
    EnvoiContient(js, DOLLAR);
    if j :| j in js && j.Suite? && j.n == 8 { assert Porte(j, DOLLAR); }
  }

  /** It happens: a word of zeros. */
  lemma UnDollar()
    ensures DOLLAR in Envoi(Jetons([0, 0, 0, 0], true))
  {
    var d: seq<byte> := [0, 0, 0, 0];
    HexaSansDiese(d);
    assert Huit(d, 0, 4);
  }

  /** Every count byte is a printable character. */
  lemma ComptesImprimables(d: seq<byte>, hexa: bool, j: Jeton)
    requires j in Jetons(d, hexa) && j.Suite?
    ensures Emis(j)[2] as int == 29 + j.n - 1 && 32 <= Emis(j)[2] <= 126
  {
    JetonsValables(d, hexa);
    assert Valable(j, hexa);
  }

  // ----- putfrags, as written ---------------------------------------------------------------------------

  function Somme(s: seq<byte>): int {
    if s == [] then 0 else Somme(s[..|s|-1]) + s[|s|-1] as int
  }

  lemma SommePlus(s: seq<byte>, c: byte)
    ensures Somme(s + [c]) == Somme(s) + c as int
  {
    assert (s + [c])[..|s|] == s;
  }

  /** '$' body '#' and the two digits of the sum of the body modulo 256. */
  function Paquet(corps: seq<byte>): seq<byte> {
    var s := (Somme(corps) % 256) as byte;
    [DOLLAR] + corps + [DIESE, Chiffre(s / 16), Chiffre(s % 16)]
  }

  function Copies(p: seq<byte>, n: nat): seq<byte> {
    if n == 0 then [] else Copies(p, n - 1) + p
  }

  /** The test of the loop as written, on the data with its null byte. */
  predicate Repetition(f: Fragment, p: nat)
    requires Bon(f) && p < |Octets(f)|
  {
    var x := f.data;
    (f.len == 0 || p + (if f.hexa then 1 else 3) < f.len) && x[p+1] == x[p]
    && if f.hexa then x[p] / 16 == x[p] % 16 else x[p+2] == x[p] && x[p+3] == x[p]
  }

  lemma RepetitionLongue(f: Fragment, p: nat)
    requires Bon(f) && p < |Octets(f)|
    ensures Repetition(f, p) <==> Longue(Octets(f)[p..], f.hexa)
  {
  }

  class Ligne {
    /** Everything sent. */
    var envoye: seq<byte>
    /** What SEND has sent since the last '$'. */
    ghost var corps: seq<byte>
    var checksum: byte

    constructor ()
      ensures envoye == []
    {
      envoye, corps, checksum := [], [], 0;
    }

    ghost predicate Juste()
      reads this
    {
      checksum as int == Somme(corps) % 256
    }

    method Send(c: byte)
      requires Juste()
      modifies this
      ensures Juste() && envoye == old(envoye) + [c] && corps == old(corps) + [c]
    {
      SommePlus(corps, c);
      envoye := envoye + [c];
      corps := corps + [c];
      checksum := ((checksum as int + c as int) % 256) as byte;
    }

    method EnvoyerBrut(c: byte)
      modifies this`envoye
      ensures envoye == old(envoye) + [c]
    {
      envoye := envoye + [c];
    }

    /** One fragment, byte by byte: no read goes past the end of the data, or past its null byte. */
    method EnvoyerFragment(f: Fragment)
      requires Bon(f) && Juste()
      modifies this
      ensures Juste()
      ensures corps == old(corps) + Envoi(Jetons(Octets(f), f.hexa))
      ensures envoye == old(envoye) + Envoi(Jetons(Octets(f), f.hexa))
    {
      hide Premiers, Pris, Envoi, Juste;
      ghost var d, fait := Octets(f), [];
      ghost var tout := Envoi(Jetons(d, f.hexa));
      var p := 0;
      assert d[0..] == d;
      assert [] + tout == tout;
      while if f.len != 0 then p < f.len else f.data[p] != 0
        invariant p <= |d| && (f.len == 0 ==> p < |f.data|)
        invariant Juste() && corps == old(corps) + fait && envoye == old(envoye) + fait
        invariant fait + Envoi(Jetons(d[p..], f.hexa)) == tout
        decreases |d| - p
      {
        assert p < |d|;
        ghost var e := Envoi(Premiers(d[p..], f.hexa));
        EnvoiSomme(Premiers(d[p..], f.hexa), Jetons(d[p..][Pris(d[p..], f.hexa)..], f.hexa));
        ghost var n := Pris(d[p..], f.hexa);
        assert d[p..][n..] == d[p+n..];
        assert fait + (e + Envoi(Jetons(d[p+n..], f.hexa))) == (fait + e) + Envoi(Jetons(d[p+n..], f.hexa));
        p := EnvoyerJeton(f, p);
        assert (old(corps) + fait) + e == old(corps) + (fait + e);
        assert (old(envoye) + fait) + e == old(envoye) + (fait + e);
        fait := fait + e;
      }
      assert d[p..] == [];
      RienEnvoye();
      assert fait + [] == fait;
    }

    /** One turn of the loop over a fragment. */
    method EnvoyerJeton(f: Fragment, p: nat) returns (suivant: nat)
      requires Bon(f) && p < |Octets(f)| && Juste()
      modifies this
      ensures Juste() && suivant == p + Pris(Octets(f)[p..], f.hexa) && suivant <= |Octets(f)|
      ensures var e := Envoi(Premiers(Octets(f)[p..], f.hexa)); corps == old(corps) + e && envoye == old(envoye) + e
    {
      hide Juste, Envoi, Octets, Longue, Repetition;
      RepetitionLongue(f, p);
      if Repetition(f, p) {
        suivant := EnvoyerSuite(f, p);
      } else {
        suivant := EnvoyerSeul(f, p);
      }
    }

    /** A run of at least four. */
    method EnvoyerSuite(f: Fragment, p: nat) returns (suivant: nat)
      requires Bon(f) && p < |Octets(f)| && Juste() && Longue(Octets(f)[p..], f.hexa)
      modifies this
      ensures Juste() && suivant == p + Pris(Octets(f)[p..], f.hexa) && suivant <= |Octets(f)|
      ensures var e := Envoi(Premiers(Octets(f)[p..], f.hexa)); corps == old(corps) + e && envoye == old(envoye) + e
    {
      hide Juste, Envoi, Longueur, Longue;
      ghost var d := Octets(f);
      var x := f.data;
      suivant := MesurerSuite(f, p);
      if f.hexa {
        Send(Chiffre(x[p] % 16));
      } else {
        Send(x[p]);
      }
      Send(ETOILE);
      LongueurMin(d[p..], f.hexa);
      var rl := if f.hexa then 2 * (suivant - p) else suivant - p;
      Send((29 + rl - 1) as byte);
      EnvoiCourt(Premiers(d[p..], f.hexa));
    }

    /** A plain character, or the two digits of a byte. */
    method EnvoyerSeul(f: Fragment, p: nat) returns (suivant: nat)
      requires Bon(f) && p < |Octets(f)| && Juste() && !Longue(Octets(f)[p..], f.hexa)
      modifies this
      ensures Juste() && suivant == p + Pris(Octets(f)[p..], f.hexa) && suivant <= |Octets(f)|
      ensures var e := Envoi(Premiers(Octets(f)[p..], f.hexa)); corps == old(corps) + e && envoye == old(envoye) + e
    {
      hide Juste, Envoi, Longueur, Longue;
      var x := f.data;
      if f.hexa {
        Send(Chiffre(x[p] / 16));
        Send(Chiffre(x[p] % 16));
      } else {
        Send(x[p]);
      }
      suivant := p + 1;
      EnvoiCourt(Premiers(Octets(f)[p..], f.hexa));
    }

    /** The loop over `q`. */
    method MesurerSuite(f: Fragment, p: nat) returns (q: nat)
      requires Bon(f) && p < |Octets(f)| && Longue(Octets(f)[p..], f.hexa)
      ensures q <= |Octets(f)| && q - p == Longueur(Octets(f)[p..], f.data[p], Max(f.hexa))
    {
      hide Longueur;
      ghost var d := Octets(f);
      var x := f.data;
      q := if f.hexa then p + 2 else p + 4;
      var limit := if f.hexa then p + 49 else p + 98;
      if f.len != 0 && limit > f.len {
        limit := f.len;
      }
      while q < limit && x[q] == x[p]
        invariant p < q <= limit && q <= |d|
        invariant forall i :: p <= i < q ==> d[i] == d[p]
      {
        q := q + 1;
      }
      LongueurUnique(d[p..], x[p], Max(f.hexa), q - p);
    }

    /** putfrags: the packet is repeated until the other side answers '+'. */
    method Putfrags(fs: seq<Fragment>, reponses: seq<byte>, ghost n: nat)
      requires Bons(fs)
      requires n < |reponses| && reponses[n] % 128 == PLUS && forall i :: 0 <= i < n ==> reponses[i] % 128 != PLUS
      modifies this
      ensures envoye == old(envoye) + Copies(Paquet(Corps(fs)), n + 1)
    {
      hide Jetons, Envoi, Octets, Juste, Paquet;
      var k, recu := 0, false;
      assert Copies(Paquet(Corps(fs)), 0) == [];
      while !recu
        invariant k <= n + 1 && recu == (k == n + 1)
        invariant envoye == old(envoye) + Copies(Paquet(Corps(fs)), k)
        decreases n + 1 - k
      {
        ghost var avant := envoye;
        EnvoyerPaquet(fs);
        assert envoye == avant + Paquet(Corps(fs));
        recu := reponses[k] % 128 == PLUS;
        k := k + 1;
      }
    }

    method EnvoyerPaquet(fs: seq<Fragment>)
      requires Bons(fs)
      modifies this
      ensures envoye == old(envoye) + Paquet(Corps(fs))
    {
      hide Corps, Somme, Chiffre;
      EnvoyerBrut(DOLLAR);
      corps, checksum := [], 0;
      SommeVide();
      EnvoyerCorps(fs);
      EnvoyerBrut(DIESE);
      EnvoyerBrut(Chiffre(checksum / 16));
      EnvoyerBrut(Chiffre(checksum % 16));
    }

    /** The loop over the fragments. */
    method EnvoyerCorps(fs: seq<Fragment>)
      requires Bons(fs) && Juste() && corps == []
      modifies this
      ensures Juste() && corps == Corps(fs) && envoye == old(envoye) + corps
    {
      hide Jetons, Octets, Envoi, TousJetons, Juste;
      var i := 0;
      assert fs[0..] == fs;
      assert [] + Corps(fs) == Corps(fs);
      while i < |fs|
        invariant i <= |fs| && Juste() && envoye == old(envoye) + corps
        invariant corps + Envoi(TousJetons(fs[i..])) == Corps(fs)
      {
        EnvoiTete(fs, i);
        ghost var c, e := corps, Envoi(Jetons(Octets(fs[i]), fs[i].hexa));
        EnvoyerFragment(fs[i]);
        assert c + (e + Envoi(TousJetons(fs[i+1..]))) == (c + e) + Envoi(TousJetons(fs[i+1..]));
        assert (old(envoye) + c) + e == old(envoye) + (c + e);
        i := i + 1;
      }
      RienAEnvoyer(fs[i..]);
      assert corps + [] == corps;
    }
  }

  lemma SommeVide()
    ensures Somme([]) == 0
  {
  }

  lemma RienAEnvoyer(fs: seq<Fragment>)
    requires fs == []
    ensures Envoi(TousJetons(fs)) == []
  {
  }

  lemma EnvoiTete(fs: seq<Fragment>, i: nat)
    requires Bons(fs) && i < |fs|
    ensures Bons(fs[i..]) && Bons(fs[i+1..])
    ensures Envoi(TousJetons(fs[i..])) == Envoi(Jetons(Octets(fs[i]), fs[i].hexa)) + Envoi(TousJetons(fs[i+1..]))
  {
    hide Envoi, Jetons, Octets;
    assert fs[i..][1..] == fs[i+1..];
    EnvoiSomme(Jetons(Octets(fs[i]), fs[i].hexa), TousJetons(fs[i+1..]));
  }

  lemma RienEnvoye()
    ensures Envoi([]) == [] && forall hexa :: Jetons([], hexa) == []
  {
  }

  lemma EnvoiCourt(js: seq<Jeton>)
    ensures |js| == 1 ==> Envoi(js) == Emis(js[0])
    ensures |js| == 2 ==> Envoi(js) == Emis(js[0]) + Emis(js[1])
  {
    if |js| == 1 { assert js[1..] == []; assert Emis(js[0]) + [] == Emis(js[0]); }
    if |js| == 2 { assert js[1..][1..] == []; assert Emis(js[1]) + [] == Emis(js[1]); }
  }
}
