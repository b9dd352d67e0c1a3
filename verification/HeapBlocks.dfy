/** The chunks of the heap of shared/malloc.c.h, as the boundary tags define them: where each
    chunk starts, how long it is, which chunk comes before it and which list holds it.  The
    elementary ways in which malloc, free, malloc_consolidate and sysmalloc rearrange the
    chunks are functions here, each shown to keep the whole arena well formed. */
module HeapBlocks {
  import opened MallocBins

  /** Where a chunk is: handed out, in a fastbin, in a bin (bin 1 is the unsorted one), or top. */
  datatype Lieu = Utilise | Rapide(i: nat) | Bac(i: nat) | Sommet

  datatype Bloc = Bloc(taille: int, avant: int, lieu: Lieu)

  type Blocs = map<int, Bloc>

  /** The chunk that follows. */
  function Fin(a: Blocs, p: int): int
    requires p in a
  {
    p + a[p].taille
  }

  /** Is this chunk in a list whose members may be merged with their neighbours? */
  predicate Libre(a: Blocs, p: int) {
    p in a && a[p].lieu.Bac?
  }

  predicate BonneListe(l: Lieu, taille: int) {
    match l
    case Rapide(i) => i < 8 && taille == 8 * (i + 2)
    case Bac(i) => i == 1 || (taille >= MINSIZE && i == BinIndex(taille))
    case _ => true
  }

  /** do_check_chunk, do_check_free_chunk and do_check_inuse_chunk, without the words in memory. */
  ghost predicate Place(a: Blocs, base: int, top: int, p: int)
    requires p in a
  {
    && p % 8 == 0 && a[p].taille % 8 == 0 && a[p].taille >= MINSIZE
    && base <= p <= top
    && (a[p].lieu.Sommet? <==> p == top)
    && (p != top ==> Fin(a, p) in a && a[Fin(a, p)].avant == p)
    && (p != base ==> a[p].avant in a && Fin(a, a[p].avant) == p)
    && (Libre(a, p) ==> !Libre(a, Fin(a, p)) && Fin(a, p) != top)
    && BonneListe(a[p].lieu, a[p].taille)
  }

  ghost predicate Arene(a: Blocs, base: int, top: int) {
    && base in a && top in a && base > 0
    && forall p {:trigger Place(a, base, top, p)} :: p in a ==> Place(a, base, top, p)
  }

  /** No chunk starts inside another: blocks handed out never overlap. */
  lemma {:induction false} Disjoints(a: Blocs, base: int, top: int, p: int, q: int)
    requires Arene(a, base, top)
    requires p in a && q in a && p < q
    ensures Fin(a, p) <= q
    decreases q - base
  {
    assert Place(a, base, top, p) && Place(a, base, top, q);
    var r := a[q].avant;
    assert Place(a, base, top, r);
    if r < p {
      Disjoints(a, base, top, r, p);
    } else if p < r {
      Disjoints(a, base, top, p, r);
    }
  }

  /** There is no chunk beyond top. */
  lemma AuDela(a: Blocs, base: int, top: int)
    requires Arene(a, base, top)
    ensures forall x :: x > top ==> x !in a
  {
    forall x | x in a ensures x <= top {
      assert Place(a, base, top, x);
    }
  }

  lemma PasTop(a: Blocs, base: int, top: int, p: int)
    requires Arene(a, base, top) && p in a && (p != top || !a[p].lieu.Sommet?)
    ensures p != top && Fin(a, p) in a && 0 < p < Fin(a, p) <= top && p % 8 == 0 && a[p].taille % 8 == 0
    ensures a[p].taille >= MINSIZE && top in a && a[top].lieu.Sommet?
  {
    assert Place(a, base, top, p) && Place(a, base, top, top);
    assert Place(a, base, top, Fin(a, p));
  }

  lemma SommetSeul(a: Blocs, base: int, top: int)
    requires Arene(a, base, top)
    ensures top in a && a[top].lieu.Sommet? && forall p :: p in a && p != top ==> !a[p].lieu.Sommet?
  {
    forall p | p in a ensures a[p].lieu.Sommet? <==> p == top {
      assert Place(a, base, top, p);
    }
  }

  lemma TailleRapide(a: Blocs, base: int, top: int, p: int)
    requires Arene(a, base, top) && p in a && a[p].lieu.Rapide?
    ensures a[p].taille == 8 * (a[p].lieu.i + 2)
  {
    assert Place(a, base, top, p);
  }

  ghost predicate Contient(a: Blocs, p: int, x: int) {
    p in a && p <= x < Fin(a, p)
  }

  /** The chunks tile the arena: every address from its base to the end of top is in one. */
  lemma {:induction false} Pavage(a: Blocs, base: int, top: int, x: int)
    requires Arene(a, base, top)
    ensures base <= x < Fin(a, top) <==> exists p :: Contient(a, p, x)
    ensures forall p, q :: Contient(a, p, x) && Contient(a, q, x) ==> p == q
  {
    if base <= x < Fin(a, top) {
      Couvert(a, base, top, base, x);
    }
    forall p | Contient(a, p, x) ensures base <= x < Fin(a, top) {
      assert Place(a, base, top, p) && Place(a, base, top, top);
      if p < top { Disjoints(a, base, top, p, top); }
    }
    forall p, q | Contient(a, p, x) && Contient(a, q, x) ensures p == q {
      if p < q { Disjoints(a, base, top, p, q); }
      if q < p { Disjoints(a, base, top, q, p); }
    }
  }

  lemma {:induction false} Couvert(a: Blocs, base: int, top: int, p: int, x: int)
    requires Arene(a, base, top) && p in a && p <= x < Fin(a, top)
    ensures exists q :: Contient(a, q, x)
    decreases x - p
  {
    assert Place(a, base, top, p);
    if x < Fin(a, p) {
      assert Contient(a, p, x);
    } else {
      Couvert(a, base, top, Fin(a, p), x);
    }
  }

  /** What a client may write of the chunk at p: from its third word to the word it shares
      with the next chunk (chunk2mem, and the size word overhead of request2size). */
  predicate Charge(a: Blocs, p: int, x: int) {
    p in a && p + 8 <= x < Fin(a, p) + 4
  }

  /** The words the allocator relies on: every size word, and for a free chunk its two links
      and the copy of its size at its end. */
  predicate MotDuTas(a: Blocs, p: int, x: int) {
    p in a && (p + 4 <= x < p + 8 || (a[p].lieu != Utilise && p + 8 <= x < p + 16)
               || (Libre(a, p) && Fin(a, p) <= x < Fin(a, p) + 4))
  }

  /** A client that stays inside its own block can neither reach another block nor damage the
      allocator's words. */
  lemma ChargeAPart(a: Blocs, base: int, top: int, p: int, x: int)
    requires Arene(a, base, top) && p in a && a[p].lieu == Utilise && Charge(a, p, x)
    ensures forall q :: q in a && q != p && a[q].lieu == Utilise ==> !Charge(a, q, x)
    ensures forall q :: !MotDuTas(a, q, x)
    ensures base + 8 <= x < Fin(a, top)
  {
    assert Place(a, base, top, p) && Place(a, base, top, top);
    assert Place(a, base, top, Fin(a, p));
    if Fin(a, p) != top { Disjoints(a, base, top, Fin(a, p), top); }
    forall q | q in a && q != p ensures !MotDuTas(a, q, x) && (a[q].lieu == Utilise ==> !Charge(a, q, x)) {
      assert Place(a, base, top, q);
      if p < q { Disjoints(a, base, top, p, q); } else { Disjoints(a, base, top, q, p); }
    }
  }

  /** The blocks handed out, with their sizes. */
  ghost function Vivants(a: Blocs): map<int, int> {
    map p | p in a && a[p].lieu == Utilise :: a[p].taille
  }

  /** Free chunks never touch: below top, one of two neighbours is handed out or in a fastbin. */
  lemma VoisinPris(a: Blocs, base: int, top: int, p: int)
    requires Arene(a, base, top) && p in a && p != top
    ensures exists q :: q in a && (a[q].lieu.Utilise? || a[q].lieu.Rapide?)
  {
    assert Place(a, base, top, p);
    var n := Fin(a, p);
    assert Place(a, base, top, n);
    var q := if Libre(a, p) then n else p;
    assert a[q].lieu.Utilise? || a[q].lieu.Rapide?;
  }

  /** So when all of them are in bins, there is nothing but top. */
  lemma ToutEnTop(a: Blocs, base: int, top: int)
    requires Arene(a, base, top) && forall p :: p in a ==> !a[p].lieu.Utilise? && !a[p].lieu.Rapide?
    ensures base == top && a.Keys == {top}
  {
    forall p | p in a ensures p == top {
      if p != top { VoisinPris(a, base, top, p); }
    }
  }

  lemma VivantsEgaux(a: Blocs, v: map<int, int>)
    requires forall r :: r in a && a[r].lieu == Utilise ==> r in v && v[r] == a[r].taille
    requires forall r :: r in v ==> r in a && a[r].lieu == Utilise
    ensures Vivants(a) == v
  {
    forall r ensures r in Vivants(a) <==> r in v {
    }
    forall r | r in v ensures Vivants(a)[r] == v[r] {
    }
  }

  lemma VivantsPareil(a: Blocs, p: int)
    requires p in a && a[p].lieu == Utilise
    ensures p in Vivants(a) && Vivants(a)[p] == a[p].taille && Vivants(a) == (Vivants(a) - {p})[p := a[p].taille]
  {
  }

  lemma PasVivant(a: Blocs, p: int)
    requires p !in a || a[p].lieu != Utilise
    ensures p !in Vivants(a)
  {
  }

  lemma EstVivant(a: Blocs, p: int)
    requires p in Vivants(a)
    ensures p in a && a[p].lieu == Utilise && Vivants(a)[p] == a[p].taille
  {
  }

  lemma BonBac(taille: nat)
    requires taille >= MINSIZE
    ensures BonneListe(Bac(BinIndex(taille)), taille)
  {
  }

  lemma RapideBon(i: nat)
    requires i < 8
    ensures BonneListe(Rapide(i), 8 * (i + 2))
  {
  }

  lemma ListeLibre(taille: int)
    ensures BonneListe(Utilise, taille) && BonneListe(Sommet, taille) && BonneListe(Bac(1), taille)
  {
  }

  // ---- the elementary rearrangements

  function ChangerLieu(a: Blocs, p: int, l: Lieu): Blocs
    requires p in a
  {
    a[p := a[p].(lieu := l)]
  }

  lemma DeuxChangements(a: Blocs, p: int, l: Lieu, m: Lieu)
    requires p in a
    ensures ChangerLieu(ChangerLieu(a, p, l), p, m) == ChangerLieu(a, p, m)
  {
  }

  lemma ChangerLieuArene(a: Blocs, base: int, top: int, p: int, l: Lieu)
    requires Arene(a, base, top) && p in a && p != top && !l.Sommet?
    requires BonneListe(l, a[p].taille)
    requires l.Bac? && !Libre(a, p) ==>
      && Fin(a, p) != top && !Libre(a, Fin(a, p))
      && (p == base || !Libre(a, a[p].avant))
    ensures Arene(ChangerLieu(a, p, l), base, top)
  {
    var b := ChangerLieu(a, p, l);
    assert Place(a, base, top, p);
    forall q | q in b ensures Place(b, base, top, q) {
      assert Place(a, base, top, q);
      if q != top && Fin(a, q) == p { assert a[p].avant == q; }
    }
  }

  /** A free chunk goes into use whole. */
  lemma ChangerLieuUtilise(a: Blocs, base: int, top: int, p: int)
    requires Arene(a, base, top) && p in a && p != top
    ensures Arene(ChangerLieu(a, p, Utilise), base, top)
  {
    ListeLibre(a[p].taille);
    ChangerLieuArene(a, base, top, p, Utilise);
  }

  /** Split the chunk at p after nb bytes: the front is handed out, the rest keeps the kind. */
  function Couper(a: Blocs, p: int, nb: int): Blocs
    requires p in a
  {
    var reste := if a[p].lieu.Sommet? then Sommet else Bac(1);
    var b := a[p := Bloc(nb, a[p].avant, Utilise)][p + nb := Bloc(a[p].taille - nb, p, reste)];
    if Fin(a, p) in a then b[Fin(a, p) := a[Fin(a, p)].(avant := p + nb)] else b
  }

  lemma CouperBacBlocs(a: Blocs, base: int, top: int, p: int, nb: int)
    requires Arene(a, base, top) && Libre(a, p)
    requires nb % 8 == 0 && MINSIZE <= nb <= a[p].taille - MINSIZE
    ensures p + nb !in a
    ensures var b := Couper(a, p, nb);
      && b.Keys == a.Keys + {p + nb}
      && b[p] == Bloc(nb, a[p].avant, Utilise) && b[p + nb] == Bloc(a[p].taille - nb, p, Bac(1))
      && Fin(a, p) in a && b[Fin(a, p)] == a[Fin(a, p)].(avant := p + nb)
      && forall q :: q in a && q != p && q != Fin(a, p) ==> b[q] == a[q]
  {
    hide BonneListe;
    assert Place(a, base, top, p) && Place(a, base, top, Fin(a, p));
    if p + nb in a { Disjoints(a, base, top, p, p + nb); }
  }

  lemma CouperBacArene(a: Blocs, base: int, top: int, p: int, nb: int)
    requires Arene(a, base, top) && Libre(a, p)
    requires nb % 8 == 0 && MINSIZE <= nb <= a[p].taille - MINSIZE
    ensures Arene(Couper(a, p, nb), base, top)
  {
    hide Couper, BonneListe;
    CouperBacBlocs(a, base, top, p, nb);
    var b := Couper(a, p, nb);
    var r, n := p + nb, Fin(a, p);
    ListeLibre(nb);
    ListeLibre(b[r].taille);
    assert Place(a, base, top, p) && Place(a, base, top, n);
    forall q | q in b ensures Place(b, base, top, q) {
      if q != r { assert Place(a, base, top, q); }
    }
  }

  lemma CouperTopBlocs(a: Blocs, base: int, top: int, nb: int)
    requires Arene(a, base, top)
    requires nb % 8 == 0 && MINSIZE <= nb <= a[top].taille - MINSIZE
    ensures top + nb !in a
    ensures var b := Couper(a, top, nb);
      && b.Keys == a.Keys + {top + nb}
      && b[top] == Bloc(nb, a[top].avant, Utilise) && b[top + nb] == Bloc(a[top].taille - nb, top, Sommet)
      && forall q :: q in a && q != top ==> b[q] == a[q]
  {
    hide BonneListe;
    assert Place(a, base, top, top);
    AuDela(a, base, top);
  }

  lemma CouperTopArene(a: Blocs, base: int, top: int, nb: int)
    requires Arene(a, base, top)
    requires nb % 8 == 0 && MINSIZE <= nb <= a[top].taille - MINSIZE
    ensures Arene(Couper(a, top, nb), base, top + nb)
  {
    hide Couper, BonneListe;
    CouperTopBlocs(a, base, top, nb);
    var b := Couper(a, top, nb);
    ListeLibre(nb);
    ListeLibre(b[top + nb].taille);
    assert Place(a, base, top, top);
    forall q | q in b ensures Place(b, base, top + nb, q) {
      if q != top + nb { assert Place(a, base, top, q); }
    }
  }

  /** Absorb the chunk that follows p. */
  function Fusion(a: Blocs, p: int): Blocs
    requires p in a && Fin(a, p) in a
  {
    var n := Fin(a, p);
    var s := a[p].taille + a[n].taille;
    var b := (a - {n})[p := Bloc(s, a[p].avant, if a[n].lieu.Sommet? then Sommet else Utilise)];
    if p + s in b then b[p + s := b[p + s].(avant := p)] else b
  }

  lemma FusionBlocs(a: Blocs, base: int, top: int, p: int)
    requires Arene(a, base, top) && p in a && p != top && a[p].lieu == Utilise
    ensures Fin(a, p) in a
    ensures var n := Fin(a, p); var m := Fin(a, n); var b := Fusion(a, p);
      && b.Keys == a.Keys - {n} && n != base
      && b[p] == Bloc(a[p].taille + a[n].taille, a[p].avant, if n == top then Sommet else Utilise)
      && (n != top ==> m in b && m != p && m != n && b[m] == a[m].(avant := p))
      && forall q :: q in b && q != p && (n != top ==> q != m) ==> b[q] == a[q]
  {
    hide BonneListe;
    assert Place(a, base, top, p) && Place(a, base, top, Fin(a, p));
    AuDela(a, base, top);
    if Fin(a, p) != top {
      assert Place(a, base, top, Fin(a, Fin(a, p)));
    }
  }

  lemma FusionTopArene(a: Blocs, base: int, top: int, p: int)
    requires Arene(a, base, top) && p in a && p != top && a[p].lieu == Utilise && Fin(a, p) == top
    requires p == base || !Libre(a, a[p].avant)
    ensures Arene(Fusion(a, p), base, p)
  {
    hide Fusion, BonneListe;
    FusionBlocs(a, base, top, p);
    var b := Fusion(a, p);
    ListeLibre(b[p].taille);
    assert Place(a, base, top, p) && Place(a, base, top, top);
    forall q | q in b ensures Place(b, base, p, q) {
      assert Place(a, base, top, q);
      if p < q { Disjoints(a, base, top, p, q); }
    }
  }

  lemma FusionMilieuArene(a: Blocs, base: int, top: int, p: int)
    requires Arene(a, base, top) && p in a && p != top && a[p].lieu == Utilise && Fin(a, p) != top
    ensures Fin(a, p) in a && Arene(Fusion(a, p), base, top)
  {
    hide Fusion, BonneListe;
    FusionBlocs(a, base, top, p);
    var b := Fusion(a, p);
    var n := Fin(a, p);
    var m := Fin(a, n);
    ListeLibre(b[p].taille);
    assert Place(a, base, top, p) && Place(a, base, top, n) && Place(a, base, top, m);
    forall q | q in b ensures Place(b, base, top, q) {
      assert Place(a, base, top, q);
    }
  }

  /** sbrk gave more room after top. */
  function Etendre(a: Blocs, top: int, s: int): Blocs
    requires top in a
  {
    a[top := a[top].(taille := a[top].taille + s)]
  }

  lemma EtendreArene(a: Blocs, base: int, top: int, s: int)
    requires Arene(a, base, top) && s >= 0 && s % 8 == 0
    ensures Arene(Etendre(a, top, s), base, top)
  {
    var b := Etendre(a, top, s);
    assert Place(a, base, top, top);
    AuDela(a, base, top);
    forall q | q in b ensures Place(b, base, top, q) {
      assert Place(a, base, top, q);
      if q != top { assert Fin(b, q) == Fin(a, q); }
    }
  }
}
