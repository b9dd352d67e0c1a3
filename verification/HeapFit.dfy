/** Which chunk malloc hands out, judged on the arena it leaves behind. */
module HeapFit {
  import opened MallocBins
  import opened HeapBlocks
  import opened HeapLists
  import opened HeapFree

  /** How much the chunk at p measured before its end was split off as a remainder. */
  function Entier(a: Blocs, p: int): int
    requires p in a
  {
    a[p].taille + if Libre(a, Fin(a, p)) then a[Fin(a, p)].taille else 0
  }

  /** Best fit.  Either p was cut from the bottom of top and no free chunk was large enough, or
      no free chunk that is large enough is smaller than the one p was made of. */
  ghost predicate MeilleurChoix(a: Blocs, top: int, p: int, nb: int)
    requires p in a
  {
    if Fin(a, p) == top then
      forall q :: Libre(a, q) ==> a[q].taille < nb
    else
      && nb <= Entier(a, p)
      && forall q :: Libre(a, q) && q != Fin(a, p) ==> a[q].taille < nb || a[q].taille >= Entier(a, p)
  }

  /** p is among the smallest free chunks that fit. */
  ghost predicate Convient(a: Blocs, p: int, nb: int) {
    && Libre(a, p) && a[p].taille >= nb
    && forall q :: Libre(a, q) ==> a[q].taille < nb || a[q].taille >= a[p].taille
  }

  lemma ConvientLibre(a: Blocs, p: int, nb: int)
    requires Convient(a, p, nb)
    ensures Libre(a, p) && a[p].taille >= nb
  {
  }

  lemma ConvientExact(a: Blocs, p: int, nb: int)
    requires Libre(a, p) && a[p].taille == nb
    ensures Convient(a, p, nb)
  {
  }

  /** Splitting p, once it has left its bin, adds one chunk to the lists: the remainder. */
  lemma CouperListes(a: Blocs, base: int, top: int, p: int, nb: int)
    requires Arene(a, base, top) && Libre(a, p)
    requires nb % 8 == 0 && MINSIZE <= nb <= a[p].taille - MINSIZE
    ensures var a1, b, r := ChangerLieu(a, p, Utilise), Couper(a, p, nb), p + nb;
      r > 0 && Ou(a1, r) == Utilise && Bouge(a1, b, r, Bac(1)) && MemesTailles(a1, b)
  {
    hide Couper, BonneListe;
    CouperBacBlocs(a, base, top, p, nb);
    PasTop(a, base, top, p);
  }

  lemma ChoixEntier(a: Blocs, base: int, top: int, p: int, nb: int)
    requires Arene(a, base, top) && Convient(a, p, nb)
    ensures MeilleurChoix(ChangerLieu(a, p, Utilise), top, p, nb)
  {
    assert Place(a, base, top, p);
    var b := ChangerLieu(a, p, Utilise);
    assert forall q :: Libre(b, q) ==> Libre(a, q) && b[q] == a[q];
  }

  lemma ChoixScinde(a: Blocs, base: int, top: int, p: int, nb: int)
    requires Arene(a, base, top) && Convient(a, p, nb)
    requires nb % 8 == 0 && MINSIZE <= nb <= a[p].taille - MINSIZE
    ensures MeilleurChoix(Couper(a, p, nb), top, p, nb)
  {
    hide Couper;
    CouperBacBlocs(a, base, top, p, nb);
    var b, r := Couper(a, p, nb), p + nb;
    PasTop(a, base, top, p);
    forall q | Libre(b, q) && q != r ensures Libre(a, q) && b[q].taille == a[q].taille {
    }
  }

  lemma ChoixTop(a: Blocs, base: int, top: int, nb: int)
    requires Arene(a, base, top) && forall q :: Libre(a, q) ==> a[q].taille < nb
    requires nb % 8 == 0 && MINSIZE <= nb <= a[top].taille - MINSIZE
    ensures top in Couper(a, top, nb) && MeilleurChoix(Couper(a, top, nb), top + nb, top, nb)
  {
    hide Couper;
    CouperTopBlocs(a, base, top, nb);
  }

  /** The block that was handed out is new, and nothing else about the blocks has changed. */
  ghost predicate Accorde(a: Blocs, v: map<int, int>, p: int, nb: int) {
    && p > 0 && p % 8 == 0 && p in a && p !in v
    && nb <= a[p].taille < nb + MINSIZE
    && Vivants(a) == v[p := a[p].taille]
  }

  lemma AccordeEntier(a: Blocs, base: int, top: int, p: int, nb: int)
    requires Arene(a, base, top) && p in a && p != top && a[p].lieu != Utilise
    requires nb <= a[p].taille < nb + MINSIZE
    ensures Accorde(ChangerLieu(a, p, Utilise), Vivants(a), p, nb)
  {
    assert Place(a, base, top, p);
    ChangerVivants(a, p, Utilise);
  }

  lemma AccordeScinde(a: Blocs, base: int, top: int, p: int, nb: int)
    requires Arene(a, base, top) && Libre(a, p)
    requires nb % 8 == 0 && MINSIZE <= nb <= a[p].taille - MINSIZE
    ensures Accorde(Couper(a, p, nb), Vivants(a), p, nb)
  {
    hide Couper;
    CouperBacBlocs(a, base, top, p, nb);
    PasTop(a, base, top, p);
    var b, v := Couper(a, p, nb), Vivants(a)[p := nb];
    forall r | r in b && b[r].lieu == Utilise ensures r in v && v[r] == b[r].taille {
      if r != p && r != Fin(a, p) { assert b[r] == a[r]; }
    }
    forall r | r in v ensures r in b && b[r].lieu == Utilise {
      if r != p && r != Fin(a, p) { assert b[r] == a[r]; }
    }
    VivantsEgaux(b, v);
  }

  lemma AccordeTop(a: Blocs, base: int, top: int, nb: int)
    requires Arene(a, base, top)
    requires nb % 8 == 0 && MINSIZE <= nb <= a[top].taille - MINSIZE
    ensures Accorde(Couper(a, top, nb), Vivants(a), top, nb)
  {
    hide Couper;
    CouperTopBlocs(a, base, top, nb);
    assert Place(a, base, top, top);
    var b := Couper(a, top, nb);
    var v := Vivants(a)[top := nb];
    forall r | r in b && b[r].lieu == Utilise ensures r in v && v[r] == b[r].taille {
      if r != top { assert b[r] == a[r]; }
    }
    forall r | r in v ensures r in b && b[r].lieu == Utilise {
      if r != top { assert b[r] == a[r]; }
    }
    VivantsEgaux(b, v);
  }

  /** The client's bytes are inside the block, whatever the size asked for. */
  lemma AssezGrand(a: Blocs, v: map<int, int>, p: int, bytes: nat)
    requires bytes < MOT - 2 * MINSIZE && Accorde(a, v, p, Request2Size(bytes))
    ensures forall x :: p + 8 <= x < p + 8 + bytes ==> Charge(a, p, x)
  {
  }
}
