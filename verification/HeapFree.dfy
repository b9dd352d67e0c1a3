/** What free and malloc_consolidate do to the chunks, seen as a whole: the chunk given back is
    merged with its free neighbours, and with top if it comes to border it. */
module HeapFree {
  import opened MallocBins
  import opened HeapBlocks
  import opened HeapLists
  import opened HeapWords

  lemma BougeChange(a: Blocs, p: int, l: Lieu)
    requires p in a && !l.Sommet? && !a[p].lieu.Sommet?
    ensures var b := ChangerLieu(a, p, l);
      && Bouge(a, b, p, l) && MemesTailles(a, b)
      && b.Keys == a.Keys && b[p] == a[p].(lieu := l)
      && forall q :: q in a && q != p ==> b[q] == a[q]
  {
  }

  /** Chunks in no list change nothing to the lists when they merge. */
  lemma FusionListes(a: Blocs, base: int, top: int, p: int)
    requires Arene(a, base, top) && p in a && p != top && a[p].lieu == Utilise && !Libre(a, Fin(a, p))
    requires Fin(a, p) in a && !a[Fin(a, p)].lieu.Rapide?
    ensures forall q :: Ou(Fusion(a, p), q) == Ou(a, q)
    ensures MemesTailles(a, Fusion(a, p))
  {
    hide Fusion, BonneListe;
    FusionBlocs(a, base, top, p);
    assert Place(a, base, top, p) && Place(a, base, top, Fin(a, p));
  }

  lemma RangeesPareil(a: Blocs, b: Blocs, ls: Listes, carte: seq<bool>)
    requires Rangees(a, ls) && Ordonnes(a, ls, carte) && MemesTailles(a, b)
    requires forall q :: Ou(b, q) == Ou(a, q)
    ensures Rangees(b, ls) && Ordonnes(b, ls, carte)
  {
    forall k | 1 <= k < NBINS ensures Membres(b, Bac(k), ls.bacs[k]) {
      assert Membres(a, Bac(k), ls.bacs[k]);
    }
    forall k | 0 <= k < NFASTS ensures Membres(b, Rapide(k), ls.rapides[k]) {
      assert Membres(a, Rapide(k), ls.rapides[k]);
    }
    OrdreAutre(a, b, ls, ls, carte);
  }

  /** The chunk before p0 is free: q absorbs p0. */
  function Arriere(a: Blocs, q: int): Blocs
    requires q in a && Fin(a, q) in a
  {
    Fusion(ChangerLieu(a, q, Utilise), q)
  }

  lemma ArriereJuste(a: Blocs, base: int, top: int, p0: int, t: Tetes, f: Pieds)
    requires Arene(a, base, top) && Mots(a, base, t, f) && p0 in a && p0 != top
    requires a[p0].lieu == Utilise && Libre(a, a[p0].avant) && p0 != base
    ensures var q := a[p0].avant;
      && Fin(a, q) == p0 && q != top && q < p0 && q in t && p0 in t && p0 in f && q == p0 - f[p0]
      && t[q].pinuse
    ensures var q := a[p0].avant; var b := Arriere(a, q);
      && Arene(b, base, top) && b.Keys == a.Keys - {p0} && b[q].lieu == Utilise
      && Fin(b, q) == Fin(a, p0) && (q == base || !Libre(b, b[q].avant))
      && (forall r :: r in b && r != q ==> b[r].lieu == a[r].lieu && b[r].taille == a[r].taille)
    ensures var q := a[p0].avant; var b := Arriere(a, q);
      Mots(b, base, t[p0 := t[p0].(pinuse := true)][q := Mot(a[q].taille + a[p0].taille, true)], f)
  {
    hide Fusion, BonneListe, ChangerLieu;
    var q := a[p0].avant;
    assert Place(a, base, top, p0) && Place(a, base, top, q);
    assert Tete(a, base, t, f, q);
    LireVoisins(a, base, top, p0, t, f);
    if q != base { assert Place(a, base, top, a[q].avant); }
    BougeChange(a, q, Utilise);
    ListeLibre(a[q].taille);
    ChangerLieuArene(a, base, top, q, Utilise);
    PrendreMots(a, base, top, q, t, f);
    var a1 := ChangerLieu(a, q, Utilise);
    var t1 := t[p0 := t[p0].(pinuse := true)];
    FusionBlocs(a1, base, top, q);
    FusionMilieuArene(a1, base, top, q);
    FusionMots(a1, base, top, q, t1, f);
    assert Place(Fusion(a1, q), base, top, q);
  }

  /** The chunk n after p is free: p absorbs it. */
  function Avant(a: Blocs, p: int): Blocs
    requires p in a && Fin(a, p) in a
  {
    Fusion(ChangerLieu(a, Fin(a, p), Utilise), p)
  }

  lemma AvantJuste(a: Blocs, base: int, top: int, p: int, t: Tetes, f: Pieds)
    requires Arene(a, base, top) && Mots(a, base, t, f) && p in a && p != top
    requires a[p].lieu == Utilise && Libre(a, Fin(a, p))
    ensures var n := Fin(a, p); var m := Fin(a, n);
      n != top && m in a && m != top && m in t && !t[m].pinuse && p in t && n > p && m > n
    ensures var n := Fin(a, p); var m := Fin(a, n); var b := Avant(a, p);
      && Arene(b, base, top) && b.Keys == a.Keys - {n} && b[p].lieu == Utilise && b[p].avant == a[p].avant
      && Fin(b, p) == m && !Libre(b, m) && top in b && Fin(b, top) == Fin(a, top)
      && (forall r :: r in b && r != p ==> b[r].lieu == a[r].lieu && b[r].taille == a[r].taille)
      && Mots(b, base, t[m := t[m].(pinuse := true)][p := Mot(a[p].taille + a[n].taille, t[p].pinuse)], f)
  {
    hide Fusion, BonneListe, ChangerLieu;
    var n := Fin(a, p);
    assert Place(a, base, top, p) && Place(a, base, top, n);
    var m := Fin(a, n);
    assert Place(a, base, top, m);
    assert Tete(a, base, t, f, m) && Tete(a, base, t, f, p);
    BougeChange(a, n, Utilise);
    ListeLibre(a[n].taille);
    ChangerLieuArene(a, base, top, n, Utilise);
    PrendreMots(a, base, top, n, t, f);
    var a1 := ChangerLieu(a, n, Utilise);
    var t1 := t[m := t[m].(pinuse := true)];
    FusionBlocs(a1, base, top, p);
    FusionMilieuArene(a1, base, top, p);
    FusionMots(a1, base, top, p, t1, f);
    PasTop(a, base, top, p);
  }

  lemma ArriereVivants(a: Blocs, base: int, top: int, p0: int, t: Tetes, f: Pieds)
    requires Arene(a, base, top) && Mots(a, base, t, f) && p0 in a && p0 != top
    requires a[p0].lieu == Utilise && Libre(a, a[p0].avant) && p0 != base
    ensures var q := a[p0].avant; Fin(a, q) in a
    ensures var q := a[p0].avant;
      Vivants(Arriere(a, q)) == (Vivants(a) - {p0})[q := a[q].taille + a[p0].taille]
  {
    hide Arene, Mots, BonneListe, Arriere;
    ArriereJuste(a, base, top, p0, t, f);
    var q := a[p0].avant;
    var b, v := Arriere(a, q), (Vivants(a) - {p0})[q := a[q].taille + a[p0].taille];
    assert b[q].taille == a[q].taille + a[p0].taille;
    VivantsEgaux(b, v);
  }

  lemma AvantVivants(a: Blocs, base: int, top: int, p: int, t: Tetes, f: Pieds)
    requires Arene(a, base, top) && Mots(a, base, t, f) && p in a && p != top
    requires a[p].lieu == Utilise && Libre(a, Fin(a, p))
    ensures Vivants(Avant(a, p)) == Vivants(a)[p := a[p].taille + a[Fin(a, p)].taille]
  {
    hide Arene, Mots, BonneListe, Avant;
    AvantJuste(a, base, top, p, t, f);
    var b, v := Avant(a, p), Vivants(a)[p := a[p].taille + a[Fin(a, p)].taille];
    assert b[p].taille == a[p].taille + a[Fin(a, p)].taille;
    VivantsEgaux(b, v);
  }

  lemma ChangerVivants(a: Blocs, p: int, l: Lieu)
    requires p in a
    ensures l != Utilise ==> Vivants(ChangerLieu(a, p, l)) == Vivants(a) - {p}
    ensures l == Utilise ==> Vivants(ChangerLieu(a, p, l)) == Vivants(a)[p := a[p].taille]
  {
    var b := ChangerLieu(a, p, l);
    assert l != Utilise ==> Vivants(b) == Vivants(a) - {p};
    assert l == Utilise ==> Vivants(b) == Vivants(a)[p := a[p].taille];
  }

  lemma FusionTopVivants(a: Blocs, base: int, top: int, p: int)
    requires Arene(a, base, top) && p in a && p != top && a[p].lieu == Utilise && Fin(a, p) == top
    ensures top in a && Vivants(Fusion(a, p)) == Vivants(a) - {p}
  {
    FusionBlocs(a, base, top, p);
    var b := Fusion(a, p);
    assert Place(a, base, top, top);
    forall r | r in b && r != p ensures b[r] == a[r] {
    }
    VivantsEgaux(b, Vivants(a) - {p});
  }

  lemma RetourVivants(v: map<int, int>, p: int, taille: int)
    requires p !in v
    ensures v[p := taille] - {p} == v
  {
  }

  /** The tags of the chunks of a sorted bin, while victim is in no list. */
  lemma TagsDuBac(a: Blocs, c: Blocs, base: int, top: int, t: Tetes, f: Pieds, ls: Listes, i: nat, victim: int)
    requires Arene(a, base, top) && Mots(a, base, t, f) && victim in a && c == ChangerLieu(a, victim, Utilise)
    requires Rangees(c, ls) && NSMALLBINS <= i < NBINS
    ensures |ls.bacs| == NBINS
    ensures forall x :: x in ls.bacs[i] ==> x > 0 && x in c && x in t && t[x] == Mot(c[x].taille, true)
  {
    hide Arene, Mots;
    assert Membres(c, Bac(i), ls.bacs[i]);
    forall x | x in ls.bacs[i] ensures x > 0 && x in c && x in t && t[x] == Mot(c[x].taille, true) {
      assert Ou(c, x) == Bac(i);
      LibrePinuse(a, base, top, t, f, x);
    }
  }
}
