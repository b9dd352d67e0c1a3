/** The boundary tags of shared/malloc.c.h as they lie in memory: the size word of each chunk
    with its PREV_INUSE bit, and the copy of a free chunk's size at its end (prev_size of the
    next chunk).  Each lemma says which words one rearrangement of the chunks has to write. */
module HeapWords {
  import opened MallocBins
  import opened HeapBlocks

  /** The size field of a malloc_chunk. */
  datatype Mot = Mot(taille: int, pinuse: bool)

  type Tetes = map<int, Mot>
  type Pieds = map<int, int>

  ghost predicate Tete(a: Blocs, base: int, t: Tetes, f: Pieds, p: int)
    requires p in a
  {
    && p in t && t[p].taille == a[p].taille
    && (t[p].pinuse <==> p == base || !Libre(a, a[p].avant))
    && (Libre(a, p) ==> Fin(a, p) in f && f[Fin(a, p)] == a[p].taille)
  }

  /** Every PREV_INUSE bit and every foot of a free chunk tells the truth. */
  ghost predicate Mots(a: Blocs, base: int, t: Tetes, f: Pieds) {
    forall p {:trigger Tete(a, base, t, f, p)} :: p in a ==> Tete(a, base, t, f, p)
  }

  lemma TetesLa(a: Blocs, base: int, t: Tetes, f: Pieds)
    requires Mots(a, base, t, f)
    ensures forall p :: p in a ==> p in t && t[p].taille == a[p].taille
  {
    forall p | p in a ensures p in t && t[p].taille == a[p].taille {
      assert Tete(a, base, t, f, p);
    }
  }

  /** Only the words of present chunks matter. */
  lemma MemesMots(a: Blocs, base: int, t: Tetes, f: Pieds, t2: Tetes)
    requires Mots(a, base, t, f)
    requires forall p :: p in a ==> p in t2 && (p in t ==> t2[p] == t[p])
    ensures Mots(a, base, t2, f)
  {
    forall p | p in a ensures Tete(a, base, t2, f, p) {
      assert Tete(a, base, t, f, p);
    }
  }

  /** A free chunk goes into use whole: set_inuse_bit_at_offset. */
  lemma PrendreMots(a: Blocs, base: int, top: int, p: int, t: Tetes, f: Pieds)
    requires Arene(a, base, top) && Libre(a, p) && Mots(a, base, t, f)
    ensures Fin(a, p) in t
    ensures var n := Fin(a, p);
      Mots(ChangerLieu(a, p, Utilise), base, t[n := t[n].(pinuse := true)], f)
  {
    hide BonneListe;
    assert Place(a, base, top, p);
    var n := Fin(a, p);
    assert Tete(a, base, t, f, n) && Place(a, base, top, n);
    var b := ChangerLieu(a, p, Utilise);
    forall q | q in b ensures Tete(b, base, t[n := t[n].(pinuse := true)], f, q) {
      assert Tete(a, base, t, f, q) && Place(a, base, top, q);
    }
  }

  /** A chunk is declared free: the next one's PREV_INUSE is cleared and the foot is set. */
  lemma PoserMots(a: Blocs, base: int, top: int, p: int, t: Tetes, f: Pieds)
    requires Arene(a, base, top) && p in a && p != top && !Libre(a, p) && Mots(a, base, t, f)
    ensures Fin(a, p) in t
    ensures var n := Fin(a, p);
      Mots(ChangerLieu(a, p, Bac(1)), base, t[n := t[n].(pinuse := false)], f[n := a[p].taille])
  {
    hide BonneListe;
    assert Place(a, base, top, p);
    var n := Fin(a, p);
    assert Tete(a, base, t, f, n) && Place(a, base, top, n);
    var b := ChangerLieu(a, p, Bac(1));
    forall q | q in b ensures Tete(b, base, t[n := t[n].(pinuse := false)], f[n := a[p].taille], q) {
      assert Tete(a, base, t, f, q) && Place(a, base, top, q);
    }
  }

  /** Moving between lists of the same kind writes no tag. */
  lemma NeutreMots(a: Blocs, base: int, p: int, l: Lieu, t: Tetes, f: Pieds)
    requires p in a && (Libre(a, p) <==> l.Bac?) && Mots(a, base, t, f)
    ensures Mots(ChangerLieu(a, p, l), base, t, f)
  {
    var b := ChangerLieu(a, p, l);
    forall q | q in b ensures Tete(b, base, t, f, q) {
      assert Tete(a, base, t, f, q);
    }
  }

  /** A chunk in use absorbs the next one, which is not free either. */
  lemma FusionMots(a: Blocs, base: int, top: int, p: int, t: Tetes, f: Pieds)
    requires Arene(a, base, top) && p in a && p != top && a[p].lieu == Utilise && Mots(a, base, t, f)
    requires !Libre(a, Fin(a, p))
    ensures Fin(a, p) in a && p in t
    ensures Mots(Fusion(a, p), base, t[p := Mot(a[p].taille + a[Fin(a, p)].taille, t[p].pinuse)], f)
  {
    hide Fusion, BonneListe;
    FusionBlocs(a, base, top, p);
    assert Tete(a, base, t, f, p) && Place(a, base, top, p);
    var n := Fin(a, p);
    assert Place(a, base, top, n);
    var b, t2 := Fusion(a, p), t[p := Mot(a[p].taille + a[n].taille, t[p].pinuse)];
    forall q | q in b ensures Tete(b, base, t2, f, q) {
      assert Tete(a, base, t, f, q) && Place(a, base, top, q);
    }
  }

  /** Splitting a free chunk: two set_head and one set_foot. */
  lemma CouperBacMots(a: Blocs, base: int, top: int, p: int, nb: int, t: Tetes, f: Pieds)
    requires Arene(a, base, top) && Libre(a, p) && Mots(a, base, t, f)
    requires nb % 8 == 0 && MINSIZE <= nb <= a[p].taille - MINSIZE
    ensures var r := a[p].taille - nb;
      Mots(Couper(a, p, nb), base, t[p := Mot(nb, true)][p + nb := Mot(r, true)], f[p + nb + r := r])
  {
    hide Couper, BonneListe;
    CouperBacBlocs(a, base, top, p, nb);
    var n := Fin(a, p);
    assert Place(a, base, top, p) && Place(a, base, top, n) && Tete(a, base, t, f, p) && Tete(a, base, t, f, n);
    if p != base { assert Place(a, base, top, a[p].avant); }
    var b, r := Couper(a, p, nb), a[p].taille - nb;
    var t2, f2 := t[p := Mot(nb, true)][p + nb := Mot(r, true)], f[p + nb + r := r];
    forall q | q in b ensures Tete(b, base, t2, f2, q) {
      if q != p + nb {
        assert Tete(a, base, t, f, q) && Place(a, base, top, q);
      }
    }
  }

  lemma CouperTopMots(a: Blocs, base: int, top: int, nb: int, t: Tetes, f: Pieds)
    requires Arene(a, base, top) && Mots(a, base, t, f)
    requires nb % 8 == 0 && MINSIZE <= nb <= a[top].taille - MINSIZE
    ensures var r := a[top].taille - nb;
      Mots(Couper(a, top, nb), base, t[top := Mot(nb, true)][top + nb := Mot(r, true)], f)
  {
    hide Couper, BonneListe;
    CouperTopBlocs(a, base, top, nb);
    assert Place(a, base, top, top) && Tete(a, base, t, f, top);
    if top != base { assert Place(a, base, top, a[top].avant); }
    var b, r := Couper(a, top, nb), a[top].taille - nb;
    var t2 := t[top := Mot(nb, true)][top + nb := Mot(r, true)];
    forall q | q in b ensures Tete(b, base, t2, f, q) {
      if q != top + nb {
        assert Tete(a, base, t, f, q) && Place(a, base, top, q);
      }
    }
  }

  lemma EtendreMots(a: Blocs, base: int, top: int, s: int, t: Tetes, f: Pieds)
    requires Arene(a, base, top) && Mots(a, base, t, f)
    ensures Mots(Etendre(a, top, s), base, t[top := Mot(a[top].taille + s, true)], f)
  {
    hide BonneListe;
    assert Place(a, base, top, top) && Tete(a, base, t, f, top);
    if top != base { assert Place(a, base, top, a[top].avant); }
    var b := Etendre(a, top, s);
    forall q | q in b ensures Tete(b, base, t[top := Mot(a[top].taille + s, true)], f, q) {
      assert Tete(a, base, t, f, q) && Place(a, base, top, q);
    }
  }

  /** What free reads of the neighbours is where they are. */
  lemma LireVoisins(a: Blocs, base: int, top: int, p: int, t: Tetes, f: Pieds)
    requires Arene(a, base, top) && Mots(a, base, t, f) && p in a
    ensures p in t && t[p].taille == a[p].taille
    ensures !t[p].pinuse ==> p != base && Libre(a, a[p].avant) && p in f && p - f[p] == a[p].avant
    ensures t[p].pinuse ==> p == base || !Libre(a, a[p].avant)
    ensures p != top ==> Fin(a, p) in a && Fin(a, p) in t && t[Fin(a, p)].taille == a[Fin(a, p)].taille
    ensures p != top && Fin(a, p) != top ==>
      var m := Fin(a, Fin(a, p)); m in t && (t[m].pinuse <==> !Libre(a, Fin(a, p)))
  {
    hide BonneListe;
    assert Tete(a, base, t, f, p) && Place(a, base, top, p);
    if p != base { assert Tete(a, base, t, f, a[p].avant) && Place(a, base, top, a[p].avant); }
    if p != top {
      var n := Fin(a, p);
      assert Tete(a, base, t, f, n) && Place(a, base, top, n);
      if n != top { assert Tete(a, base, t, f, Fin(a, n)) && Place(a, base, top, Fin(a, n)); }
    }
  }

  /** A free chunk always has its PREV_INUSE bit set: two free chunks never touch. */
  lemma LibrePinuse(a: Blocs, base: int, top: int, t: Tetes, f: Pieds, x: int)
    requires Arene(a, base, top) && Mots(a, base, t, f) && Libre(a, x)
    ensures x in t && t[x] == Mot(a[x].taille, true)
  {
    assert Tete(a, base, t, f, x) && Place(a, base, top, x);
    if x != base { assert Place(a, base, top, a[x].avant); }
  }

  /** The arena as sysmalloc first sets it up: top alone. */
  lemma ArenaNeuve(b: int, s: int, t: Tetes, f: Pieds)
    requires b > 0 && b % 8 == 0 && s % 8 == 0 && s >= MINSIZE
    ensures var a := map[b := Bloc(s, 0, Sommet)];
      && Arene(a, b, b) && Mots(a, b, t[b := Mot(s, true)], f)
      && Vivants(a) == map[] && (forall q :: !Libre(a, q))
  {
  }
}
