/** mALLOc, fREe, malloc_consolidate and sYSMALLOc of shared/malloc.c.h, statement by statement
    on the words and links they write, over the sbrk of the same file. */
module Malloc {
  import opened MallocBins
  import opened HeapBlocks
  import opened HeapLists
  import opened HeapWords
  import opened HeapFree
  import opened HeapFit
  import opened PriorityQueue

  const PAGE := 4096
  const CONSOLIDATION := 131072   // FASTBIN_CONSOLIDATION_THRESHOLD
  const TRIM := 262144            // DEFAULT_TRIM_THRESHOLD

  function Pages(x: nat): (r: nat)
    ensures r % PAGE == 0 && x <= r < x + PAGE
  {
    var q := (x + 4095) / 4096;
    assert 4096 * q <= x + 4095 < 4096 * q + 4096;
    4096 * q
  }

  /** The raw size field, PREV_INUSE included. */
  function Brut(m: Mot): int {
    if m.pinuse then m.taille + 1 else m.taille
  }

  lemma ExtraBorne(topSize: int)
    requires MINSIZE <= topSize < 0x8000_0000
    ensures 0 <= ((topSize - MINSIZE + (PAGE - 1)) / PAGE - 1) * PAGE + PAGE <= topSize + PAGE
  {
    var q := (topSize - MINSIZE + 4095) / 4096;
    assert 4096 * q <= topSize - MINSIZE + 4095 < 4096 * q + 4096;
  }

  /** A small chunk of another size goes to another small bin. */
  lemma SansCollision(size: nat, nb: nat)
    requires size % 8 == 0 && nb % 8 == 0 && size != nb && size >= MINSIZE && nb >= MINSIZE
    ensures nb < MIN_LARGE_SIZE ==> 2 <= nb / 8 < NSMALLBINS && BinIndex(size) != nb / 8
  {
    BinIndexBorne(size);
  }

  lemma Non1(nb: nat)
    requires nb % 8 == 0 && nb >= MINSIZE
    ensures nb < MIN_LARGE_SIZE ==> 2 <= nb / 8 < NSMALLBINS
  {
  }

  lemma PagesSous(x: nat, fin: nat)
    requires x <= fin && fin % PAGE == 0
    ensures Pages(x) <= fin
  {
    var q, f := Pages(x) / 4096, fin / 4096;
    assert Pages(x) == 4096 * q && fin == 4096 * f;
  }

  function Decalage(brk: nat): nat {
    var frontMisalign := (brk + 8) % 8;
    if frontMisalign > 0 then 8 - frontMisalign else 0
  }

  /** The first time, the second call of sbrk cannot fail: what it asks for ends on a page, and so
      does the heap. */
  lemma SecondSbrk(brk: nat, size: nat, fin: nat)
    requires size % PAGE == 0 && brk + size <= fin && fin % PAGE == 0
    ensures (brk + Decalage(brk)) % 8 == 0 && Decalage(brk) < 8
    ensures Pages(brk + size + Decalage(brk)) <= fin
    ensures (Pages(brk + size + Decalage(brk)) - (brk + Decalage(brk))) % 8 == 0
  {
    hide Pages, Decalage;
    var d := Decalage(brk);
    var end := brk + size + d;
    DecalageJuste(brk);
    Huitaine(size);
    Huitaine(fin);
    Huitaine(Pages(end));
    Sommes8(brk + d, size);
    assert brk + d + size == end;
    Arrondi(brk + size, d, fin);
    PagesSous(end, fin);
    Sommes8(brk + d, Pages(end));
  }

  lemma DecalageJuste(brk: nat)
    ensures (brk + Decalage(brk)) % 8 == 0 && Decalage(brk) < 8
  {
  }

  lemma Sommes8(x: int, y: int)
    requires x % 8 == 0 && y % 8 == 0
    ensures (x + y) % 8 == 0 && (y - x) % 8 == 0
  {
  }

  lemma Arrondi(x: int, d: nat, fin: int)
    requires x <= fin && d < 8 && (x + d) % 8 == 0 && fin % 8 == 0
    ensures x + d <= fin
  {
    var u, v := (x + d) / 8, fin / 8;
    assert x + d == 8 * u && fin == 8 * v;
  }

  lemma FoisHuit(k: int)
    ensures (8 * k) % 8 == 0
  {
  }

  lemma Huitaine(x: nat)
    requires x % PAGE == 0
    ensures x % 8 == 0
  {
    var k := 512 * (x / 4096);
    assert x == 8 * k;
    FoisHuit(k);
  }

  class Allocateur {
    // malloc_state.  The two flags kept in the low bits of max_fast are fields of their own, and
    // top == 0 stands for initial_top, whose size word is zero.
    var maxFast: int
    var any: bool
    var fast: bool
    var fb: seq<int>
    var top: int
    var dernier: int
    var binmap: seq<bool>
    // the memory: size words, prev_size words, and the two links
    var tetes: Tetes
    var pieds: Pieds
    var fd: Liens
    var bk: Liens
    // sbrk
    const memHeap: int
    const memHeapEnd: int
    var curptr: int
    // what it all means
    ghost var a: Blocs
    ghost var ls: Listes
    ghost var base: int

    ghost predicate EnListes()
      reads `fd, `bk, `fb, `ls, `a, `binmap, `any, `fast
    {
      && Chaines(fd, bk, fb, ls) && Rangees(a, ls) && Ordonnes(a, ls, binmap)
      && Drapeaux(any, fast, ls)
    }

    /** The arena exists: sbrk has been called with success. */
    ghost predicate Ouvert()
      reads `a, `base, `top, `tetes, `pieds, `curptr
    {
      && Arene(a, base, top) && Mots(a, base, tetes, pieds)
      && Fin(a, top) == curptr && curptr % PAGE == 0 && memHeap <= base
    }

    /** Before that. */
    ghost predicate Vierge()
      reads `a, `top, `tetes, `curptr, `any
    {
      && a == map[] && top == 0 && 0 in tetes && tetes[0] == Mot(0, false)
      && curptr == memHeap && !any
    }

    /** malloc_state as the program starts: all zero. */
    ghost predicate Neuf()
      reads this
    {
      Vierge() && !fast && fb == seq(NFASTS, i => 0) && binmap == seq(128, i => false)
    }

    ghost predicate Limites()
      reads `curptr
    {
      0 < memHeap <= curptr <= memHeapEnd < 0x8000_0000 && memHeapEnd % PAGE == 0
    }

    ghost predicate Valid()
      reads this
    {
      && Limites()
      && (if maxFast == 0 then Neuf() else maxFast == MAX_FAST && EnListes() && (Vierge() || Ouvert()))
    }

    /** mem_heap and mem_heap_end come from the linker script, which aligns the latter on a page;
        everything else is zero. */
    constructor (debut: int, fin: int)
      requires 0 < debut <= fin < 0x8000_0000 && fin % PAGE == 0
      ensures Valid() && Vivants(a) == map[] && curptr == debut && memHeapEnd == fin
    {
      memHeap, memHeapEnd, curptr := debut, fin, debut;
      maxFast, any, fast := 0, false, false;
      fb := seq(NFASTS, i => 0);
      top, dernier := 0, 0;
      binmap := seq(128, i => false);
      tetes, pieds, fd, bk := map[0 := Mot(0, false)], map[], map[], map[];
      a, ls, base := map[], Listes([], []), 0;
    }

    /** malloc_init_state */
    method Init()
      requires Valid() && maxFast == 0
      modifies this`maxFast, this`fd, this`bk, this`top, this`ls
      ensures Valid() && maxFast == MAX_FAST && Vierge()
    {
      var i := 1;
      while i < NBINS
        invariant 1 <= i <= NBINS && Vides(fd, bk, i)
      {
        fd, bk := fd[Entete(i) := Entete(i)], bk[Entete(i) := Entete(i)];
        i := i + 1;
      }
      VidesListes(fd, bk, fb, binmap);
      maxFast := MAX_FAST;
      top := 0;
      ls := ListesVides();
    }

    /** sbrk, lines 10-18: it never gives memory back. */
    method Sbrk(diff: int) returns (r: int)
      requires Limites() && -0x8000_0000 <= diff < 0x8000_0000
      modifies this`curptr
      ensures Limites()
      ensures r == -1 <==> diff < 0 || old(curptr) + diff > memHeapEnd
      ensures r == -1 ==> curptr == old(curptr)
      ensures r != -1 ==> r == old(curptr) && curptr == r + diff
    {
      var s := curptr;
      var c := s + diff;
      if c < curptr || c > memHeapEnd {
        return -1;
      }
      curptr := c;
      return s;
    }

    /** The macro unlink. */
    method Unlink(p: int, ghost i: nat, ghost j: nat)
      requires Chaines(fd, bk, fb, ls) && Rangees(a, ls) && Ordonnes(a, ls, binmap)
      requires 1 <= i < NBINS && j < |ls.bacs[i]| && ls.bacs[i][j] == p
      modifies this`fd, this`bk, this`ls
      ensures ls == RetireBac(old(ls), i, j)
      ensures Chaines(fd, bk, fb, ls)
      ensures p in a && a[p].lieu == Bac(i)
      ensures var b := ChangerLieu(a, p, Utilise);
        Rangees(b, ls) && Ordonnes(b, ls, binmap)
    {
      hide Chaines, Ordonnes;
      assert Membres(a, Bac(i), ls.bacs[i]) && p in ls.bacs[i];
      BougeChange(a, p, Utilise);
      ghost var b := ChangerLieu(a, p, Utilise);
      UnlinkListes(a, b, fd, bk, fb, ls, i, j);
      OrdreRetire(a, b, ls, binmap, i, j);
      var f, k := fd[p], bk[p];
      bk := bk[f := k];
      fd := fd[k := f];
      ls := RetireBac(ls, i, j);
    }

    /** A free chunk leaves its bin. */
    method Detacher(p: int)
      requires EnListes() && any && Arene(a, base, top) && Libre(a, p)
      modifies this`fd, this`bk, this`ls, this`a
      ensures EnListes() && ls.rapides == old(ls.rapides)
      ensures a == ChangerLieu(old(a), p, Utilise)
      ensures |ls.bacs| == |old(ls).bacs| == NBINS && old(Libre(a, p)) && 1 <= old(a)[p].lieu.i < NBINS
      ensures forall k {:trigger ls.bacs[k]} :: 1 <= k < NBINS && old(a)[p].lieu != Bac(k) ==> ls.bacs[k] == old(ls).bacs[k]
    {
      hide Arene, Chaines, Rangees, Ordonnes, Drapeaux, ChangerLieu;
      DansSonBac(a, base, top, ls, p);
      ghost var i := a[p].lieu.i;
      ghost var j := SlotOf(ls.bacs[i], p);
      DrapeauxBacs(any, fast, ls, RetireBac(ls, i, j));
      Unlink(p, i, j);
      a := ChangerLieu(a, p, Utilise);
    }

    /** Chunks that are in no list merge: the lists do not notice. */
    ghost method Remanier(b: Blocs)
      requires EnListes() && MemesTailles(a, b) && forall q :: Ou(b, q) == Ou(a, q)
      modifies this`a
      ensures EnListes() && a == b
    {
      RangeesPareil(a, b, ls, binmap);
      a := b;
    }

    /** Consolidate backward: if the chunk before p0 is free, it leaves its bin and absorbs p0.
        The size words are not written yet; t is what they are about to be. */
    method Reculer(p0: int) returns (p: int, size: int, ghost t: Tetes)
      requires Ouvert() && EnListes() && any && p0 in a && a[p0].lieu == Utilise
      modifies this`fd, this`bk, this`ls, this`a
      ensures EnListes() && ls.rapides == old(ls.rapides)
      ensures Arene(a, base, top) && Mots(a, base, t, pieds) && Fin(a, top) == curptr
      ensures p in a && p != top && a[p].lieu == Utilise && size == a[p].taille
      ensures p0 in old(a) && Fin(a, p) == Fin(old(a), p0)
      ensures p == base || !Libre(a, a[p].avant)
      ensures p in t && t[p].pinuse
      ensures p == p0 || p !in old(Vivants(a))
      ensures forall r :: r in a && r != p ==> r in tetes && r in t && t[r] == tetes[r]
      ensures Vivants(a) == (old(Vivants(a)) - {p0})[p := size]
    {
      hide Arene, Mots, EnListes, ChangerLieu, Fusion, Arriere, BonneListe, Vivants;
      LireVoisins(a, base, top, p0, tetes, pieds);
      PasTop(a, base, top, p0);
      p, size, t := p0, tetes[p0].taille, tetes;
      TetesLa(a, base, tetes, pieds);
      VivantsPareil(a, p);
      if !tetes[p].pinuse {
        ArriereJuste(a, base, top, p0, tetes, pieds);
        ArriereVivants(a, base, top, p0, tetes, pieds);
        PasVivant(a, a[p0].avant);
        var prevsize := pieds[p];
        size := size + prevsize;
        p := p - prevsize;
        BougeChange(a, p, Utilise);
        ChangerLieuUtilise(a, base, top, p);
        FusionListes(ChangerLieu(a, p, Utilise), base, top, p);
        ghost var b := Arriere(a, p);
        Detacher(p);
        Remanier(b);
        t := tetes[p0 := tetes[p0].(pinuse := true)][p := Mot(size, true)];
      }
    }

    /** The four writes that link p at the front of the unsorted bin. */
    method EnFile(p: int)
      requires EnListes() && any && p in a && a[p].lieu == Utilise && p > 0
      modifies this`fd, this`bk, this`ls, this`a
      ensures EnListes() && ls.rapides == old(ls.rapides)
      ensures a == ChangerLieu(old(a), p, Bac(1))
    {
      hide Chaines, Rangees, Ordonnes, Drapeaux, ChangerLieu, MetBac;
      ghost var b := ChangerLieu(a, p, Bac(1));
      BougeChange(a, p, Bac(1));
      EnTete(fd, bk, fb, ls, 1);
      InsererListes(a, b, fd, bk, fb, ls, 1, 0, p);
      MetBacAutres(ls, 1, 0, p);
      ghost var r := MetBac(ls, 1, 0, p);
      OrdreAutre(a, b, ls, r, binmap);
      DrapeauxBacs(any, fast, ls, r);
      var fwd := fd[Entete(1)];
      bk := bk[p := Entete(1)];
      fd := fd[p := fwd];
      fd := fd[Entete(1) := p];
      bk := bk[fwd := p];
      a, ls := b, r;
    }

    /** Between the merging and the writing of the tags: t holds what the tags are about to be,
        and the PREV_INUSE bit after p is already cleared. */
    ghost predicate EnCours(p: int, size: int, t: Tetes)
      reads `a, `base, `top, `pieds, `tetes
    {
      && Arene(a, base, top) && Mots(a, base, t, pieds)
      && p in a && p != top && a[p].lieu == Utilise && size == a[p].taille && p in t && t[p].pinuse
      && (p == base || !Libre(a, a[p].avant))
      && Fin(a, p) in a && Fin(a, p) != top && Fin(a, p) in tetes
      && (forall r :: r in a && r != p ==> r in t && r in tetes && t[r].taille == tetes[r].taille)
      && (forall r :: r in a && r != p && r != Fin(a, p) ==> t[r] == tetes[r])
    }

    /** Consolidate forward, into the free chunk n that follows p. */
    method Avancer(p: int, n: int, size0: int, ghost t0: Tetes) returns (size: int, ghost t: Tetes)
      requires EnListes() && any && EnCours(p, size0, t0) && n == Fin(a, p) && Libre(a, n)
      modifies this`fd, this`bk, this`ls, this`a
      ensures EnListes() && ls.rapides == old(ls.rapides)
      ensures EnCours(p, size, t) && !Libre(a, Fin(a, p)) && !tetes[Fin(a, p)].pinuse
      ensures Vivants(a) == old(Vivants(a))[p := size] && top in a && old(top in a) && Fin(a, top) == Fin(old(a), top)
    {
      hide Arene, Mots, EnListes, ChangerLieu, BonneListe, Vivants, Fusion, Avant;
      AvantJuste(a, base, top, p, t0, pieds);
      AvantVivants(a, base, top, p, t0, pieds);
      TetesLa(a, base, t0, pieds);
      BougeChange(a, n, Utilise);
      ChangerLieuUtilise(a, base, top, n);
      FusionListes(ChangerLieu(a, n, Utilise), base, top, p);
      size := size0 + tetes[n].taille;
      t := t0[Fin(a, n) := t0[Fin(a, n)].(pinuse := true)][p := Mot(size, t0[p].pinuse)];
      ghost var b := Avant(a, p);
      Detacher(n);
      Remanier(b);
    }

    /** The chunk goes to the front of the unsorted bin; its head and its foot are written. */
    method Deposer(p: int, size: int, ghost t: Tetes)
      requires EnListes() && any && EnCours(p, size, t)
      requires !Libre(a, Fin(a, p)) && !tetes[Fin(a, p)].pinuse
      requires Fin(a, top) == curptr && curptr % PAGE == 0 && memHeap <= base
      modifies this`tetes, this`pieds, this`fd, this`bk, this`ls, this`a
      ensures Ouvert() && EnListes() && ls.rapides == old(ls.rapides)
      ensures Vivants(a) == old(Vivants(a)) - {p}
    {
      hide Arene, Mots, EnListes, ChangerLieu, BonneListe, Vivants;
      PasTop(a, base, top, p);
      TetesLa(a, base, t, pieds);
      ghost var n := Fin(a, p);
      BougeChange(a, p, Bac(1));
      ChangerVivants(a, p, Bac(1));
      ListeLibre(a[p].taille);
      ChangerLieuArene(a, base, top, p, Bac(1));
      PoserMots(a, base, top, p, t, pieds);
      EnFile(p);
      tetes := tetes[p := Mot(size, true)];
      pieds := pieds[p + size := size];
      MemesMots(a, base, t[n := t[n].(pinuse := false)], pieds, tetes);
    }

    /** The chunk borders top: top now starts at p. */
    method FondreTop(p: int, size: int, ghost t: Tetes)
      requires EnListes() && any
      requires Arene(a, base, top) && Mots(a, base, t, pieds) && Fin(a, top) == curptr
      requires curptr % PAGE == 0 && memHeap <= base
      requires p in a && p != top && a[p].lieu == Utilise && Fin(a, p) == top && size == a[p].taille + a[top].taille
      requires p == base || !Libre(a, a[p].avant)
      requires p in t && t[p].pinuse
      requires forall r :: r in a && r != p ==> r in t && r in tetes && t[r] == tetes[r]
      modifies this`tetes, this`top, this`a
      ensures Ouvert() && EnListes()
      ensures Vivants(a) == old(Vivants(a)) - {p}
    {
      hide Arene, Mots, EnListes, ChangerLieu, BonneListe, Vivants, Fusion;
      PasTop(a, base, top, p);
      FusionBlocs(a, base, top, p);
      FusionTopArene(a, base, top, p);
      FusionTopVivants(a, base, top, p);
      FusionMots(a, base, top, p, t, pieds);
      FusionListes(a, base, top, p);
      ghost var b := Fusion(a, p);
      tetes := tetes[p := Mot(size, true)];
      MemesMots(b, base, t[p := Mot(size, true)], pieds, tetes);
      Remanier(b);
      top := p;
    }

    /** What fREe and malloc_consolidate do to one chunk that is being given back. */
    method Fusionner(p0: int) returns (size: int)
      requires Ouvert() && EnListes() && any && p0 in a && a[p0].lieu == Utilise
      modifies this`tetes, this`pieds, this`fd, this`bk, this`top, this`ls, this`a
      ensures Ouvert() && EnListes() && ls.rapides == old(ls.rapides)
      ensures Vivants(a) == old(Vivants(a)) - {p0}
    {
      hide Arene, Mots, EnListes, BonneListe, Vivants, Fusion, Avant;
      PasTop(a, base, top, p0);
      LireVoisins(a, base, top, p0, tetes, pieds);
      var nextchunk := p0 + tetes[p0].taille;
      var nextsize := tetes[nextchunk].taille;
      var p;
      ghost var t;
      p, size, t := Reculer(p0);
      PasTop(a, base, top, p);
      TetesLa(a, base, t, pieds);
      if nextchunk != top {
        LireVoisins(a, base, top, p, t, pieds);
        PasTop(a, base, top, nextchunk);
        var nextinuse := tetes[nextchunk + nextsize].pinuse;
        tetes := tetes[nextchunk := Mot(nextsize, false)];
        if !nextinuse {
          size, t := Avancer(p, nextchunk, size, t);
        }
        Deposer(p, size, t);
      } else {
        FondreTop(p, size + nextsize, t);
        size := size + nextsize;
      }
    }

    /** The head of fastbin i is taken off. */
    method Depiler(i: nat) returns (p: int)
      requires EnListes() && any && Arene(a, base, top) && i < NFASTS && i < |fb| && fb[i] != 0
      modifies this`fb, this`ls, this`a
      ensures EnListes() && Arene(a, base, top) && p in a && p != top && 0 < p
      ensures p in old(a) && old(a)[p].lieu == Rapide(i) && a == ChangerLieu(old(a), p, Utilise)
      ensures |ls.rapides| == |old(ls).rapides| == NFASTS && old(ls).rapides[i] != []
      ensures ls == old(ls).(rapides := old(ls).rapides[i := old(ls).rapides[i][1..]])
    {
      hide Arene, Chaines, Rangees, Ordonnes, ChangerLieu;
      TeteDePile(a, fd, bk, fb, ls, i);
      p := fb[i];
      PasTop(a, base, top, p);
      ghost var b := ChangerLieu(a, p, Utilise);
      BougeChange(a, p, Utilise);
      ChangerLieuUtilise(a, base, top, p);
      DepilerListes(a, b, fd, bk, fb, ls, i);
      ghost var r := ls.(rapides := ls.rapides[i := ls.rapides[i][1..]]);
      OrdreAutre(a, b, ls, r, binmap);
      fb := fb[i := fd[p]];
      a, ls := b, r;
    }

    ghost predicate RapidesVides(n: int)
      reads `ls
    {
      |ls.rapides| == NFASTS && forall k {:trigger ls.rapides[k]} :: 0 <= k < n && k < NFASTS ==> ls.rapides[k] == []
    }

    lemma RienEncore()
      requires EnListes()
      ensures RapidesVides(0)
    {
    }

    /** One turn of the inner loop of malloc_consolidate. */
    method ConsoliderUn(i: nat)
      requires Ouvert() && EnListes() && any && i < NFASTS && i < |fb| && fb[i] != 0
      modifies this`tetes, this`pieds, this`fd, this`bk, this`fb, this`top, this`ls, this`a
      ensures Ouvert() && EnListes() && |fb| == NFASTS
      ensures Vivants(a) == old(Vivants(a))
      ensures |ls.rapides| == |old(ls).rapides| == NFASTS && old(ls).rapides[i] != []
      ensures ls.rapides == old(ls).rapides[i := old(ls).rapides[i][1..]]
      ensures old(RapidesVides(i)) ==> RapidesVides(i)
    {
      hide Arene, Mots, EnListes, ChangerLieu, Vivants, BonneListe;
      ghost var a0 := a;
      var p := Depiler(i);
      PasTop(a0, base, top, p);
      BougeChange(a0, p, Utilise);
      ChangerVivants(a0, p, Utilise);
      NeutreMots(a0, base, p, Utilise, tetes, pieds);
      PasVivant(a0, p);
      var size := Fusionner(p);
      RetourVivants(Vivants(a0), p, a0[p].taille);
      LongueurFb();
    }

    lemma LongueurFb()
      requires EnListes()
      ensures |fb| == |ls.rapides| == NFASTS && |ls.bacs| == NBINS && |binmap| == 128
    {
    }

    /** A fastbin with a chunk in it: there is an arena, and the flags say so. */
    lemma PileDonc(i: nat)
      requires EnListes() && (Vierge() || Ouvert()) && i < NFASTS && i < |fb|
      ensures fb[i] != 0 ==> any && Ouvert() && !Vierge()
      ensures fb[i] == 0 && RapidesVides(i) ==> RapidesVides(i + 1)
    {
      TeteDePile(a, fd, bk, fb, ls, i);
    }

    lemma ToutVide()
      requires EnListes() && (Vierge() || Ouvert()) && RapidesVides(8)
      ensures Drapeaux(any, false, ls)
    {
      if Ouvert() { RapidesHauts(a, base, top, ls); }
    }

    /** With no block handed out and no fastbin chunk left, the arena is one chunk, up to the break. */
    ghost predicate Reuni()
      reads `a, `base, `top, `curptr
    {
      a == map[] || (base == top && a.Keys == {top} && Fin(a, top) == curptr)
    }

    lemma Reunir()
      requires EnListes() && !fast && (Vierge() || Ouvert()) && Vivants(a) == map[]
      ensures Reuni()
    {
      if Ouvert() {
        forall p | p in a ensures !a[p].lieu.Utilise? && !a[p].lieu.Rapide? {
          if a[p].lieu.Utilise? { VivantsPareil(a, p); }
          if a[p].lieu.Rapide? { EnPile(p); }
        }
        ToutEnTop(a, base, top);
      }
    }

    lemma EnPile(p: int)
      requires EnListes() && Ouvert() && p in a && a[p].lieu.Rapide?
      ensures a[p].lieu.i < |ls.rapides| == NFASTS && p in ls.rapides[a[p].lieu.i]
    {
      assert Place(a, base, top, p);
      assert Membres(a, Rapide(a[p].lieu.i), ls.rapides[a[p].lieu.i]);
      assert Ou(a, p) == Rapide(a[p].lieu.i);
    }

    lemma RienEnArene()
      requires Vierge()
      ensures Reuni()
    {
    }

    /** malloc_consolidate.  The flag is cleared here once the fastbins are empty, and each chunk
        is taken off as it is merged; nothing looks at either in between. */
    method Consolidate()
      requires Valid()
      modifies this
      ensures Valid() && maxFast == MAX_FAST && !fast && any == old(any) && dernier == old(dernier)
      ensures Vivants(a) == old(Vivants(a)) && curptr == old(curptr)
      ensures old(Vierge()) ==> Vierge()
      ensures Vivants(a) == map[] ==> Reuni()
    {
      hide Ouvert, Vierge, Chaines, Rangees, Ordonnes, Drapeaux, Vivants, RapidesVides, Reuni;
      if maxFast != 0 {
        LongueurFb();
        RienEncore();
        var i := 0;
        while i < 8
          invariant 0 <= i <= 8 && |fb| == NFASTS && (Vierge() || Ouvert()) && EnListes() && Limites()
          invariant maxFast == MAX_FAST && any == old(any) && dernier == old(dernier) && curptr == old(curptr)
          invariant Vivants(a) == old(Vivants(a)) && RapidesVides(i)
          invariant old(Vierge()) ==> Vierge()
        {
          PileDonc(i);
          LongueurFb();
          while fb[i] != 0
            invariant |fb| == |ls.rapides| == NFASTS && (Vierge() || Ouvert()) && EnListes() && Limites()
            invariant fb[i] != 0 ==> any && Ouvert() && !Vierge()
            invariant maxFast == MAX_FAST && any == old(any) && dernier == old(dernier) && curptr == old(curptr)
            invariant Vivants(a) == old(Vivants(a)) && RapidesVides(i)
            invariant old(Vierge()) ==> Vierge()
            decreases |ls.rapides[i]|
          {
            ConsoliderUn(i);
            PileDonc(i);
          }
          PileDonc(i);
          i := i + 1;
        }
        ToutVide();
        fast := false;
        if Vivants(a) == map[] { Reunir(); }
      } else {
        Init();
        RienEnArene();
      }
    }

    /** sYSTRIm: memory is only ever asked back from an sbrk that refuses. */
    method Trim() returns (rendu: int)
      requires Limites() && Ouvert()
      modifies this`curptr
      ensures rendu == 0 && curptr == old(curptr)
    {
      PasTopMots();
      var topSize := tetes[top].taille;
      var extra := ((topSize - MINSIZE + (PAGE - 1)) / PAGE - 1) * PAGE;
      ExtraBorne(topSize);
      if extra > 0 {
        var current := Sbrk(0);
        if current == top + topSize {
          var _ := Sbrk(-extra);
          var nouveau := Sbrk(0);
          if nouveau != -1 {
            var released := current - nouveau;
            if released != 0 {
              return 1;
            }
          }
        }
      }
      return 0;
    }

    lemma PasTopMots()
      requires Ouvert()
      ensures top in a && top in tetes && tetes[top].taille == a[top].taille && 0 < top && MINSIZE <= a[top].taille
      ensures top + a[top].taille == curptr && top % 8 == 0 && a[top].lieu.Sommet?
    {
      TetesLa(a, base, tetes, pieds);
      assert Place(a, base, top, top);
    }

    /** A push on fastbin i. */
    method Empiler(i: nat, p: int)
      requires EnListes() && i < 8 && p in a && a[p].lieu == Utilise && p > 0 && a[p].taille == 8 * (i + 2)
      modifies this`fd, this`fb, this`ls, this`a, this`any, this`fast
      ensures EnListes() && any && fast
      ensures a == ChangerLieu(old(a), p, Rapide(i))
    {
      hide Chaines, Rangees, Ordonnes, Drapeaux, ChangerLieu;
      LongueurFb();
      any, fast := true, true;
      ghost var b := ChangerLieu(a, p, Rapide(i));
      BougeChange(a, p, Rapide(i));
      EmpilerListes(a, b, fd, bk, fb, ls, i, p);
      ghost var r := ls.(rapides := ls.rapides[i := [p] + ls.rapides[i]]);
      DrapeauxRapide(old(any), old(fast), ls, i, [p] + ls.rapides[i]);
      OrdreAutre(a, b, ls, r, binmap);
      fd := fd[p := fb[i]];
      fb := fb[i := p];
      a, ls := b, r;
    }

    /** fREe */
    method Free(mem: int)
      requires Valid()
      requires mem == 0 || mem - 8 in Vivants(a)
      modifies this
      ensures Valid() && curptr == old(curptr)
      ensures Vivants(a) == if mem == 0 then old(Vivants(a)) else old(Vivants(a)) - {mem - 8}
    {
      hide Arene, Mots, Chaines, Rangees, Ordonnes, Drapeaux, ChangerLieu, Vivants, BonneListe;
      if mem != 0 {
        var p := mem - 8;
        EstVivant(a, p);
        PasTop(a, base, top, p);
        TetesLa(a, base, tetes, pieds);
        var size := tetes[p].taille;
        LongueurFb();
        if size <= maxFast {
          var i := size / 8 - 2;
          assert size == 8 * (i + 2);
          ChangerVivants(a, p, Rapide(i));
          BougeChange(a, p, Rapide(i));
          RapideBon(i);
          ChangerLieuArene(a, base, top, p, Rapide(i));
          NeutreMots(a, base, p, Rapide(i), tetes, pieds);
          Empiler(i, p);
        } else {
          DrapeauxRapide(any, fast, ls, 0, []);
          any := true;
          size := Fusionner(p);
          if size >= CONSOLIDATION {
            if fast {
              Consolidate();
            }
            PasTopMots();
            if tetes[top].taille >= TRIM {
              var _ := Trim();
            }
          }
        }
      }
    }

    // ---- malloc

    /** A free chunk is handed out whole: unlink, and set_inuse_bit_at_offset. */
    method ServirEntier(p: int, nb: int)
      requires Ouvert() && EnListes() && any && Libre(a, p) && nb <= a[p].taille < nb + MINSIZE
      modifies this`tetes, this`fd, this`bk, this`ls, this`a
      ensures Ouvert() && EnListes() && ls.rapides == old(ls.rapides)
      ensures Accorde(a, old(Vivants(a)), p, nb)
      ensures old(Convient(a, p, nb)) ==> MeilleurChoix(a, top, p, nb)
    {
      hide Arene, Mots, EnListes, ChangerLieu, Vivants, BonneListe, Convient, Accorde, MeilleurChoix;
      TetesLa(a, base, tetes, pieds);
      PasTop(a, base, top, p);
      BougeChange(a, p, Utilise);
      ChangerLieuUtilise(a, base, top, p);
      PrendreMots(a, base, top, p, tetes, pieds);
      AccordeEntier(a, base, top, p, nb);
      if Convient(a, p, nb) { ChoixEntier(a, base, top, p, nb); }
      Detacher(p);
      var n := p + tetes[p].taille;
      tetes := tetes[n := tetes[n].(pinuse := true)];
    }

    /** The unsorted bin, empty, is reset to the remainder. */
    method ResteSeul(r: int, ghost b: Blocs)
      requires EnListes() && any && r > 0 && |ls.bacs| == NBINS && ls.bacs[1] == []
      requires Ou(a, r) == Utilise && Bouge(a, b, r, Bac(1)) && MemesTailles(a, b)
      modifies this`fd, this`bk, this`ls, this`a
      ensures EnListes() && a == b && ls.rapides == old(ls.rapides)
    {
      hide Chaines, Rangees, Ordonnes, Drapeaux;
      SeulListes(a, b, fd, bk, fb, ls, r);
      ghost var l := ls.(bacs := ls.bacs[1 := [r]]);
      OrdreAutre(a, b, ls, l, binmap);
      DrapeauxBacs(any, fast, ls, l);
      bk := bk[Entete(1) := r];
      fd := fd[Entete(1) := r];
      bk := bk[r := Entete(1)];
      fd := fd[r := Entete(1)];
      a, ls := b, l;
    }

    /** A free chunk is taken out of its bin and cut; the rest becomes the one unsorted chunk. */
    method ServirScinde(p: int, nb: int, size: int)
      requires Ouvert() && EnListes() && any && Convient(a, p, nb) && size == a[p].taille
      requires nb % 8 == 0 && MINSIZE <= nb <= size - MINSIZE
      requires |ls.bacs| == NBINS && ls.bacs[1] == []
      modifies this`tetes, this`pieds, this`fd, this`bk, this`ls, this`a
      ensures Ouvert() && EnListes() && ls.rapides == old(ls.rapides)
      ensures Accorde(a, old(Vivants(a)), p, nb) && MeilleurChoix(a, top, p, nb)
    {
      hide Arene, Mots, EnListes, ChangerLieu, Couper, Vivants, BonneListe, Convient, Accorde, MeilleurChoix;
      ConvientLibre(a, p, nb);
      PasTop(a, base, top, p);
      AccordeScinde(a, base, top, p, nb);
      ChoixScinde(a, base, top, p, nb);
      CouperBacBlocs(a, base, top, p, nb);
      CouperBacArene(a, base, top, p, nb);
      CouperBacMots(a, base, top, p, nb, tetes, pieds);
      ghost var b := Couper(a, p, nb);
      CouperListes(a, base, top, p, nb);
      DansBac1(p);
      Detacher(p);
      var remainder := p + nb;
      ResteSeul(remainder, b);
      tetes := tetes[p := Mot(nb, true)][remainder := Mot(size - nb, true)];
      pieds := pieds[remainder + (size - nb) := size - nb];
    }

    /** With no unsorted chunk, a free chunk is in a numbered bin. */
    lemma DansBac1(p: int)
      requires EnListes() && |ls.bacs| == NBINS && ls.bacs[1] == [] && Libre(a, p)
      ensures a[p].lieu != Bac(1)
    {
      assert Membres(a, Bac(1), ls.bacs[1]);
      assert Ou(a, p) == a[p].lieu;
    }

    /** A chunk that fits is taken, and split if what would be left can be a chunk. */
    method Servir(p: int, nb: int)
      requires Ouvert() && EnListes() && any && Convient(a, p, nb) && nb % 8 == 0 && nb >= MINSIZE
      requires |ls.bacs| == NBINS && ls.bacs[1] == []
      modifies this`tetes, this`pieds, this`fd, this`bk, this`ls, this`a, this`dernier
      ensures Ouvert() && EnListes() && ls.rapides == old(ls.rapides)
      ensures Accorde(a, old(Vivants(a)), p, nb) && MeilleurChoix(a, top, p, nb)
    {
      hide Arene, Mots, EnListes, Vivants, BonneListe, Convient, Accorde, MeilleurChoix;
      TetesLa(a, base, tetes, pieds);
      ConvientLibre(a, p, nb);
      PasTop(a, base, top, p);
      var size := tetes[p].taille;
      var remainderSize := size - nb;
      if remainderSize < MINSIZE {
        ServirEntier(p, nb);
      } else {
        ServirScinde(p, nb, size);
        if nb < MIN_LARGE_SIZE {
          dernier := p + nb;
        }
      }
    }

    /** Where a chunk of that size goes in the sorted bin i: the search through the raw size words. */
    method Rang(i: nat, size: int, ghost c: Blocs) returns (bck: int, fwd: int, ghost j: nat)
      requires Chaines(fd, bk, fb, ls) && NSMALLBINS <= i < NBINS && Trie(c, ls.bacs[i])
      requires forall x :: x in ls.bacs[i] ==> x > 0 && x in c && x in tetes && tetes[x] == Mot(c[x].taille, true)
      ensures |ls.bacs| == NBINS && j <= |ls.bacs[i]| && BonRang(c, ls.bacs[i], j, size)
      ensures bck == Noeud(ls.bacs[i], i, j - 1) && fwd == Noeud(ls.bacs[i], i, j)
    {
      EnTete(fd, bk, fb, ls, i);
      ghost var s := ls.bacs[i];
      assert Boucle(fd, bk, s, i);
      bck := Entete(i);
      fwd := fd[bck];
      j := 0;
      if fwd != bck {
        ghost var d := s[|s| - 1];
        assert d in s;
        if size < Brut(tetes[bk[bck]]) {
          fwd := bck;
          bck := bk[bck];
          j := |s|;
          forall m | 0 <= m < |s| ensures s[m] in c && c[s[m]].taille >= size {
            assert Lt(m, |s| - 1) || m == |s| - 1;
          }
        } else {
          var brut := size + 1;
          while brut < Brut(tetes[fwd])
            invariant j < |s| && fwd == s[j]
            invariant forall m :: 0 <= m < j ==> s[m] in c && c[s[m]].taille > size
            decreases |s| - j
          {
            assert s[j] in s;
            assert Lien(fd, bk, s, i, j + 1);
            fwd := fd[fwd];
            j := j + 1;
          }
          assert s[j] in s && Lien(fd, bk, s, i, j);
          bck := bk[fwd];
          forall m | j <= m < |s| ensures s[m] in c && c[s[m]].taille <= size {
            assert Lt(j, m) || j == m;
          }
        }
      }
    }

    /** mark_bin, and the four writes that link victim between bck and fwd in bin i.  victim has
        just left the unsorted bin: c is the arena without it in any list. */
    method Lier(victim: int, i: nat, bck: int, fwd: int, ghost j: nat, ghost c: Blocs, ghost b: Blocs)
      requires Chaines(fd, bk, fb, ls) && Rangees(c, ls) && Ordonnes(c, ls, binmap) && Drapeaux(any, fast, ls) && any
      requires 2 <= i < NBINS && |ls.bacs| == NBINS && j <= |ls.bacs[i]| && victim > 0 && victim in c
      requires i >= NSMALLBINS ==> BonRang(c, ls.bacs[i], j, c[victim].taille)
      requires bck == Noeud(ls.bacs[i], i, j - 1) && fwd == Noeud(ls.bacs[i], i, j)
      requires c[victim].lieu == Utilise && b == ChangerLieu(c, victim, Bac(i))
      modifies this`fd, this`bk, this`ls, this`binmap, this`a
      ensures EnListes() && a == b && ls == MetBac(old(ls), i, j, victim)
    {
      hide Chaines, Rangees, Ordonnes, Drapeaux, ChangerLieu, MetBac, BonRang;
      BougeChange(c, victim, Bac(i));
      InsererListes(c, b, fd, bk, fb, ls, i, j, victim);
      OrdreMet(c, b, ls, binmap, i, j, victim);
      MetBacAutres(ls, i, j, victim);
      LongueurCarte(c, ls, binmap);
      ghost var r := MetBac(ls, i, j, victim);
      DrapeauxBacs(any, fast, ls, r);
      binmap := binmap[i := true];
      bk := bk[victim := bck];
      fd := fd[victim := fwd];
      bk := bk[fwd := victim];
      fd := fd[bck := victim];
      a, ls := b, r;
    }

    /** The body of the unsorted loop for a chunk that malloc does not take: the last unsorted
        chunk goes to the bin of its size. */
    method Classer(victim: int, size: int)
      requires Ouvert() && EnListes() && any && |ls.bacs| == NBINS && ls.bacs[1] != []
      requires victim == ls.bacs[1][|ls.bacs[1]| - 1] && victim in a && size == a[victim].taille
      modifies this`fd, this`bk, this`ls, this`binmap, this`a
      ensures Ouvert() && EnListes() && ls.rapides == old(ls.rapides)
      ensures Vivants(a) == old(Vivants(a)) && size >= MINSIZE
      ensures |ls.bacs| == NBINS && |ls.bacs[1]| == old(|ls.bacs[1]|) - 1
      ensures forall k {:trigger ls.bacs[k]} :: 2 <= k < NBINS && k != BinIndex(size) ==> ls.bacs[k] == old(ls).bacs[k]
    {
      hide Arene, Mots, Chaines, Rangees, Ordonnes, Drapeaux, ChangerLieu, MetBac, Vivants, BonRang, BinIndex, Trie;
      ghost var l0, a0, n := ls, a, |ls.bacs[1]| - 1;
      DuBac(a, base, top, ls, 1, n);
      PasTop(a, base, top, victim);
      BinIndexBorne(size);
      ghost var c, b := ChangerLieu(a, victim, Utilise), ChangerLieu(a, victim, Bac(BinIndex(size)));
      BougeChange(a, victim, Utilise);
      BougeChange(a, victim, Bac(BinIndex(size)));
      ChangerVivants(a, victim, Bac(BinIndex(size)));
      PasVivant(a, victim);
      BonBac(size);
      ChangerLieuArene(a, base, top, victim, Bac(BinIndex(size)));
      NeutreMots(a, base, victim, Bac(BinIndex(size)), tetes, pieds);
      DrapeauxBacs(any, fast, ls, RetireBac(ls, 1, n));
      Unlink(victim, 1, n);
      var bck, fwd;
      ghost var j := 0;
      var index := BinIndex(size);
      if size < MIN_LARGE_SIZE {
        bck := Entete(index);
        EnTete(fd, bk, fb, ls, index);
        fwd := fd[bck];
      } else {
        TrieDuBac(c, ls, binmap, index);
        TagsDuBac(a0, c, base, top, tetes, pieds, ls, index, victim);
        bck, fwd, j := Rang(index, size, c);
      }
      Lier(victim, index, bck, fwd, j, c, ChangerLieu(c, victim, Bac(index)));
      DeuxChangements(a0, victim, Utilise, Bac(index));
      MetBacAutres(RetireBac(l0, 1, n), index, j, victim);
    }

    /** The unsorted bin, which held v alone, is reset to r. */
    method Remplacer(v: int, r: int, ghost c: Blocs, ghost b: Blocs)
      requires EnListes() && any && |ls.bacs| == NBINS && ls.bacs[1] == [v]
      requires Bouge(a, c, v, Utilise) && MemesTailles(a, c)
      requires r > 0 && Ou(c, r) == Utilise && Bouge(c, b, r, Bac(1)) && MemesTailles(c, b)
      modifies this`fd, this`bk, this`ls, this`a
      ensures EnListes() && a == b && ls.rapides == old(ls.rapides)
    {
      hide Chaines, Rangees, Ordonnes, Drapeaux;
      SeulAuLieuDe(a, c, b, fd, bk, fb, ls, v, r);
      ghost var l := ls.(bacs := ls.bacs[1 := [r]]);
      OrdreAutre(a, c, ls, RetireBac(ls, 1, 0), binmap);
      OrdreAutre(c, b, RetireBac(ls, 1, 0), l, binmap);
      DrapeauxBacs(any, fast, ls, l);
      bk := bk[Entete(1) := r];
      fd := fd[Entete(1) := r];
      bk := bk[r := Entete(1)];
      fd := fd[r := Entete(1)];
      a, ls := b, l;
    }

    /** The last remainder, alone in the unsorted bin, is cut again: its own remainder takes its
        place there. */
    method ServirDernier(victim: int, nb: int, size: int)
      requires Ouvert() && EnListes() && any && |ls.bacs| == NBINS && ls.bacs[1] == [victim]
      requires Libre(a, victim) && size == a[victim].taille && nb % 8 == 0 && MINSIZE <= nb < size - MINSIZE
      modifies this`tetes, this`pieds, this`fd, this`bk, this`ls, this`a, this`dernier
      ensures Ouvert() && EnListes() && ls.rapides == old(ls.rapides)
      ensures Accorde(a, old(Vivants(a)), victim, nb) && dernier == victim + nb
    {
      hide Arene, Mots, EnListes, ChangerLieu, Couper, Vivants, BonneListe, Accorde;
      AccordeScinde(a, base, top, victim, nb);
      CouperBacBlocs(a, base, top, victim, nb);
      CouperBacArene(a, base, top, victim, nb);
      CouperBacMots(a, base, top, victim, nb, tetes, pieds);
      CouperListes(a, base, top, victim, nb);
      PasTop(a, base, top, victim);
      BougeChange(a, victim, Utilise);
      var remainder := victim + nb;
      Remplacer(victim, remainder, ChangerLieu(a, victim, Utilise), Couper(a, victim, nb));
      dernier := remainder;
      tetes := tetes[victim := Mot(nb, true)][remainder := Mot(size - nb, true)];
      pieds := pieds[remainder + (size - nb) := size - nb];
    }

    ghost predicate BacVide(i: int)
      reads `ls
    {
      1 <= i < |ls.bacs| == NBINS && ls.bacs[i] == []
    }

    /** The loop over the unsorted bin, oldest chunk first.  p == 0 when no chunk was taken. */
    method Balayer(nb: int) returns (p: int)
      requires Ouvert() && EnListes() && any && nb % 8 == 0 && nb >= MINSIZE
      requires nb < MIN_LARGE_SIZE ==> BacVide(nb / 8)
      modifies this`tetes, this`pieds, this`fd, this`bk, this`ls, this`a, this`binmap, this`dernier
      ensures Ouvert() && EnListes() && ls.rapides == old(ls.rapides)
      ensures p == 0 ==> Vivants(a) == old(Vivants(a)) && BacVide(1) && dernier == old(dernier)
      ensures p == 0 && nb < MIN_LARGE_SIZE ==> BacVide(nb / 8)
      ensures p != 0 ==> Accorde(a, old(Vivants(a)), p, nb)
      ensures p != 0 ==> MeilleurChoix(a, top, p, nb) || (nb < MIN_LARGE_SIZE && p == old(dernier))
    {
      hide Ouvert, EnListes, Accorde, MeilleurChoix, Vivants, BinIndex, Convient;
      Non1(nb);
      FinDesNonTries();
      while bk[Entete(1)] != Entete(1)
        invariant Ouvert() && EnListes() && any && ls.rapides == old(ls.rapides)
        invariant Vivants(a) == old(Vivants(a)) && dernier == old(dernier)
        invariant nb < MIN_LARGE_SIZE ==> BacVide(nb / 8)
        invariant |ls.bacs| == NBINS && Entete(1) in bk && (bk[Entete(1)] == Entete(1) <==> ls.bacs[1] == [])
        decreases |ls.bacs[1]|
      {
        DernierNonTrie();
        var victim := bk[Entete(1)];
        var bck := bk[victim];
        var size := tetes[victim].taille;
        if nb < MIN_LARGE_SIZE && bck == Entete(1) && victim == dernier && size > nb + MINSIZE {
          ServirDernier(victim, nb, size);
          return victim;
        }
        if size == nb {
          ConvientExact(a, victim, nb);
          ServirEntier(victim, nb);
          return victim;
        }
        Classer(victim, size);
        SansCollision(size, nb);
        FinDesNonTries();
      }
      return 0;
    }

    lemma FinDesNonTries()
      requires EnListes()
      ensures |ls.bacs| == NBINS && Entete(1) in bk && (bk[Entete(1)] == Entete(1) <==> ls.bacs[1] == [])
    {
      EnTete(fd, bk, fb, ls, 1);
      assert Membres(a, Bac(1), ls.bacs[1]);
      if ls.bacs[1] != [] { assert ls.bacs[1][|ls.bacs[1]| - 1] in ls.bacs[1]; }
    }

    /** What malloc reads of the oldest unsorted chunk. */
    lemma DernierNonTrie()
      requires Ouvert() && EnListes() && |ls.bacs| == NBINS && ls.bacs[1] != []
      ensures Entete(1) in bk
      ensures var v := bk[Entete(1)];
        && v == ls.bacs[1][|ls.bacs[1]| - 1] && Libre(a, v) && v > 0 && v in tetes && tetes[v].taille == a[v].taille
        && v in bk && (bk[v] == Entete(1) <==> |ls.bacs[1]| == 1)
        && a[v].taille % 8 == 0 && a[v].taille >= MINSIZE
    {
      var s := ls.bacs[1];
      EnTete(fd, bk, fb, ls, 1);
      DuBac(a, base, top, ls, 1, |s| - 1);
      assert Boucle(fd, bk, s, 1) && Lien(fd, bk, s, 1, |s| - 1);
      if |s| > 1 { DuBac(a, base, top, ls, 1, |s| - 2); }
      TetesLa(a, base, tetes, pieds);
    }

    ghost predicate TropPetits(i: int, nb: int)
      reads `ls, `a
    {
      && 1 <= i < |ls.bacs| == NBINS
      && forall x :: x in ls.bacs[i] ==> x in a && a[x].taille < nb
    }

    ghost predicate AucunNeVa(nb: int)
      reads `a
    {
      forall q :: Libre(a, q) ==> a[q].taille < nb
    }

    /** The scan of the bin of a large request, from its small end. */
    method Scruter(nb: int) returns (victim: int)
      requires Ouvert() && EnListes() && nb >= MIN_LARGE_SIZE && BacVide(1)
      ensures 2 <= BinIndex(nb) < NBINS
      ensures victim == Entete(BinIndex(nb)) ==> TropPetits(BinIndex(nb), nb)
      ensures victim != Entete(BinIndex(nb)) ==> Convient(a, victim, nb)
    {
      hide Arene, Mots, BinIndex, Drapeaux;
      BinIndexBorne(nb);
      var idx := BinIndex(nb);
      EnTete(fd, bk, fb, ls, idx);
      ghost var s := ls.bacs[idx];
      ghost var j := |s| - 1;
      assert Boucle(fd, bk, s, idx);
      TetesLa(a, base, tetes, pieds);
      victim := bk[Entete(idx)];
      while victim != Entete(idx)
        invariant -1 <= j < |s| && victim == Noeud(s, idx, j)
        invariant forall m :: j < m < |s| ==> s[m] in a && a[s[m]].taille < nb
        decreases j
      {
        DuBac(a, base, top, ls, idx, j);
        var size := tetes[victim].taille;
        if size >= nb {
          PlusPetitIci(a, base, top, ls, binmap, nb, j);
          DuBac(a, base, top, ls, idx, j);
          return;
        }
        assert Lien(fd, bk, s, idx, j);
        victim := bk[victim];
        j := j - 1;
      }
      if j >= 0 { DuBac(a, base, top, ls, idx, j); }
      forall x | x in s ensures x in a && a[x].taille < nb {
        var m := SlotOf(s, x);
      }
    }

    /** A word of the binmap. */
    function Carte(block: nat): nat
      requires block < 4 && |binmap| == 128
      reads `binmap
    {
      MotCarte(binmap[32 * block..32 * block + 32])
    }

    /** No set bit from this one upwards in the word: it is larger than the word, or has dropped
        out of it. */
    predicate Fini(block: nat, bit: nat)
      requires block < 4 && bit <= 32 && |binmap| == 128
      reads `binmap
    {
      Bit(bit) > Carte(block) || Bit(bit) == 0
    }

    lemma FiniVide(block: nat, bit: nat)
      requires block < 4 && bit <= 32 && |binmap| == 128
      ensures Fini(block, bit) <==> forall i :: 32 * block + bit <= i < 32 * block + 32 ==> !binmap[i]
      ensures bit < 32 ==> (Allume(Carte(block), Bit(bit)) <==> binmap[32 * block + bit])
    {
      hide Bit, Allume, MotCarte;
      var b := binmap[32 * block..32 * block + 32];
      PlusDeBit(b, bit);
      assert forall i :: 32 * block + bit <= i < 32 * block + 32 ==> binmap[i] == b[i - 32 * block];
      assert forall j :: bit <= j < 32 ==> b[j] == binmap[32 * block + j];
    }

    /** A false alarm: the bit of an empty bin is cleared. */
    method Effacer(i: nat)
      requires EnListes() && i < NBINS && |ls.bacs| == NBINS && ls.bacs[i] == []
      modifies this`binmap
      ensures EnListes() && |binmap| == 128
    {
      OrdreEfface(a, ls, binmap, i);
      binmap := binmap[i := false];
    }

    /** Skip the words of the binmap that are zero, or run out of bins. */
    method SauterMots(nb: int, b0: nat) returns (block: nat)
      requires EnListes() && b0 < 4 && nb >= 0 && BinIndex(nb) < 32 * b0 + 32
      requires VidesEntre(BinIndex(nb) + 1, 32 * b0 + 32)
      ensures b0 < block && BinIndex(nb) < 32 * block
      ensures block >= 3 ==> VidesEntre(BinIndex(nb) + 1, 96)
      ensures block < 3 ==> VidesEntre(BinIndex(nb) + 1, 32 * block) && |binmap| == 128 && !Fini(block, 0)
    {
      hide EnListes, BinIndex;
      LongueurFb();
      block := b0 + 1;
      while block < 3 && Carte(block) == 0
        invariant b0 < block && BinIndex(nb) < 32 * block
        invariant VidesEntre(BinIndex(nb) + 1, 32 * block)
      {
        MotFini(block, 0);
        block := block + 1;
      }
    }

    /** Advance to the next set bit of the word. */
    method SauterBits(nb: int, block: nat, b0: nat) returns (bit: nat)
      requires EnListes() && |binmap| == 128 && block < 4 && b0 <= 32 && !Fini(block, b0) && nb >= 0
      requires 2 <= BinIndex(nb) < 32 * block + b0 && VidesEntre(BinIndex(nb) + 1, 32 * block + b0)
      ensures b0 <= bit < 32 && binmap[32 * block + bit]
      ensures VidesEntre(BinIndex(nb) + 1, 32 * block + bit)
    {
      hide EnListes, BinIndex, Fini, Carte, Bit;
      bit := b0;
      FiniVide(block, bit);
      while !Allume(Carte(block), Bit(bit))
        invariant b0 <= bit < 32 && !Fini(block, bit)
        invariant VidesEntre(BinIndex(nb) + 1, 32 * block + bit)
        invariant Allume(Carte(block), Bit(bit)) <==> binmap[32 * block + bit]
        decreases 32 - bit
      {
        FiniVide(block, bit);
        FiniVide(block, bit + 1);
        BitEteint(32 * block + bit);
        bit := bit + 1;
      }
    }

    /** The walk over the binmap, from the bin after that of nb.  Bits found set for an empty bin
        are cleared on the way.  victim == 0 when the walk runs out of bins. */
    method Parcourir(nb: int) returns (victim: int)
      requires Ouvert() && EnListes() && nb >= MINSIZE && BacVide(1)
      requires 2 <= BinIndex(nb) < NBINS && TropPetits(BinIndex(nb), nb)
      modifies this`binmap
      ensures EnListes()
      ensures victim == 0 ==> AucunNeVa(nb)
      ensures victim != 0 ==> Convient(a, victim, nb)
    {
      hide Ouvert, EnListes, BinIndex, TropPetits, Convient, AucunNeVa, BacVide, Fini;
      var idx := BinIndex(nb) + 1;
      var block: nat := idx / 32;
      var bit: nat := idx % 32;
      LongueurFb();
      while true
        invariant EnListes() && |binmap| == 128
        invariant BinIndex(nb) < 32 * block + bit <= 128 && bit <= 32 && block < 4
        invariant VidesEntre(BinIndex(nb) + 1, 32 * block + bit)
        decreases 128 - (32 * block + bit)
      {
        if Fini(block, bit) {
          MotFini(block, bit);
          block := SauterMots(nb, block);
          if block >= 3 {
            BoutDeLaCarte(nb);
            return 0;
          }
          bit := 0;
        }
        bit := SauterBits(nb, block, bit);
        var i := 32 * block + bit;
        BitAllume(i);
        FinDuBac(i);
        victim := bk[Entete(i)];
        if victim == Entete(i) {
          Effacer(i);
          bit := bit + 1;
        } else {
          PremierBac(nb, i);
          return;
        }
      }
    }

    ghost predicate VidesEntre(lo: int, hi: int)
      reads `ls
    {
      |ls.bacs| == NBINS && forall k {:trigger ls.bacs[k]} :: 0 <= lo <= k < hi && k < NBINS ==> ls.bacs[k] == []
    }

    lemma BoutDeLaCarte(nb: int)
      requires Ouvert() && EnListes() && nb >= MINSIZE && BacVide(1)
      requires 2 <= BinIndex(nb) < NBINS && TropPetits(BinIndex(nb), nb)
      requires VidesEntre(BinIndex(nb) + 1, 96)
      ensures AucunNeVa(nb)
    {
      hide BinIndex;
      RienNeVa(a, base, top, ls, nb);
    }

    lemma PremierBac(nb: int, i: nat)
      requires Ouvert() && EnListes() && nb >= MINSIZE && BacVide(1)
      requires 2 <= BinIndex(nb) < i < NBINS && TropPetits(BinIndex(nb), nb)
      requires VidesEntre(BinIndex(nb) + 1, i) && ls.bacs[i] != []
      ensures Convient(a, ls.bacs[i][|ls.bacs[i]| - 1], nb)
    {
      hide BinIndex;
      PlusPetit(a, base, top, ls, binmap, nb, i);
      DuBac(a, base, top, ls, i, |ls.bacs[i]| - 1);
    }

    /** Only bins have bits. */
    lemma BitAllume(i: nat)
      requires EnListes() && |binmap| == 128 && i < 128 && binmap[i]
      ensures i < NBINS
    {
      LongueurCarte(a, ls, binmap);
    }

    /** A bin whose bit is clear is empty. */
    lemma BitEteint(i: nat)
      requires EnListes() && |binmap| == 128 && 2 <= i < 128 && !binmap[i]
      ensures |ls.bacs| == NBINS && (i < NBINS ==> ls.bacs[i] == [])
    {
    }

    lemma MotFini(block: nat, bit: nat)
      requires EnListes() && |binmap| == 128 && block < 4 && bit <= 32 && Fini(block, bit)
      ensures |ls.bacs| == NBINS
      ensures forall k {:trigger ls.bacs[k]} :: 32 * block + bit <= k < 32 * block + 32 && 2 <= k < NBINS ==> ls.bacs[k] == []
    {
      FiniVide(block, bit);
      forall k | 32 * block + bit <= k < 32 * block + 32 && 2 <= k < NBINS ensures ls.bacs[k] == [] {
        BitEteint(k);
      }
    }

    lemma FinDuBac(i: nat)
      requires EnListes() && 1 <= i < NBINS
      ensures Entete(i) in bk && |ls.bacs| == NBINS
      ensures bk[Entete(i)] == Entete(i) <==> ls.bacs[i] == []
      ensures ls.bacs[i] != [] ==> bk[Entete(i)] == ls.bacs[i][|ls.bacs[i]| - 1] && bk[Entete(i)] > 0
    {
      EnTete(fd, bk, fb, ls, i);
      assert Membres(a, Bac(i), ls.bacs[i]);
      if ls.bacs[i] != [] { assert ls.bacs[i][|ls.bacs[i]| - 1] in ls.bacs[i]; }
    }

    ghost function TailleTop(): int
      reads `a, `top
    {
      if top in a then a[top].taille else 0
    }

    /** No chunk fits and sbrk has no more to give. */
    ghost predicate Epuise(nb: int)
      reads `a, `top, `fast, `curptr
    {
      && !fast && AucunNeVa(nb) && TailleTop() < nb + MINSIZE
      && curptr + Pages(nb + MINSIZE - TailleTop()) > memHeapEnd
    }

    /** The bottom of top is handed out. */
    method CouperLeTop(nb: int) returns (p: int)
      requires Ouvert() && EnListes() && AucunNeVa(nb)
      requires nb % 8 == 0 && MINSIZE <= nb <= a[top].taille - MINSIZE
      modifies this`tetes, this`top, this`a
      ensures Ouvert() && EnListes() && p == old(top)
      ensures Accorde(a, old(Vivants(a)), p, nb) && MeilleurChoix(a, top, p, nb) && p > 0
    {
      hide Arene, Mots, EnListes, Couper, Vivants, BonneListe, Accorde, MeilleurChoix;
      PasTopMots();
      p := top;
      var size := tetes[p].taille;
      AccordeTop(a, base, top, nb);
      ChoixTop(a, base, top, nb);
      CouperTopBlocs(a, base, top, nb);
      CouperTopArene(a, base, top, nb);
      CouperTopMots(a, base, top, nb, tetes, pieds);
      var remainder := p + nb;
      ghost var b := Couper(a, top, nb);
      Remanier(b);
      top := remainder;
      tetes := tetes[p := Mot(nb, true)][remainder := Mot(size - nb, true)];
    }

    /** The first call of sbrk: the arena starts at the first aligned address, and a second call
        makes it end on a page. */
    method Ouvrir(brk: int, size: int)
      requires Limites() && EnListes() && a == map[] && 0 < brk && memHeap <= brk
      requires size % PAGE == 0 && size > MINSIZE && curptr == brk + size
      modifies this`curptr, this`tetes, this`top, this`a, this`base
      ensures Limites() && Ouvert() && EnListes() && Vivants(a) == map[]
      ensures (forall q :: !Libre(a, q)) && a[top].taille >= size
    {
      hide Arene, Mots, EnListes, Vivants, Pages;
      var alignedBrk := brk;
      var correction := 0;
      var frontMisalign := (brk + 8) % 8;
      if frontMisalign > 0 {
        correction := 8 - frontMisalign;
        alignedBrk := alignedBrk + correction;
      }
      SecondSbrk(brk, size, memHeapEnd);
      var endMisalign := brk + size + correction;
      PagesBorne(endMisalign);
      correction := correction + (Pages(endMisalign) - endMisalign);
      var sndBrk := Sbrk(correction);
      assert sndBrk != -1;
      base, top := alignedBrk, alignedBrk;
      var taille := sndBrk - alignedBrk + correction;
      ArenaNeuve(base, taille, tetes, pieds);
      Remanier(map[top := Bloc(taille, 0, Sommet)]);
      tetes := tetes[top := Mot(taille, true)];
    }

    lemma PagesBorne(x: nat)
      ensures Pages(x) % PAGE == 0 && x <= Pages(x) < x + PAGE
    {
    }

    /** What malloc owes its caller, and what it may answer.  p is the chunk, nb the padded size. */
    ghost predicate Rendu(v: map<int, int>, d: int, mem: int, nb: int)
      reads `a, `top, `fast, `curptr
    {
      if mem == 0 then Vivants(a) == v && Epuise(nb)
      else
        && Accorde(a, v, mem - 8, nb)
        && (MeilleurChoix(a, top, mem - 8, nb) || (nb < MIN_LARGE_SIZE && mem - 8 == d))
    }

    /** sYSMALLOc, HAVE_MMAP being 0.  The arena is contiguous: once it exists, sbrk always gives
        the bytes after top, so neither fenceposts nor a move of top are ever needed. */
    method SysMalloc(nb: int) returns (mem: int)
      requires Valid() && maxFast == MAX_FAST && AucunNeVa(nb) && TailleTop() < nb + MINSIZE
      requires nb % 8 == 0 && MINSIZE <= nb < MOT - MINSIZE && (fast ==> nb < MIN_LARGE_SIZE)
      modifies this
      ensures Valid() && Rendu(old(Vivants(a)), old(dernier), mem, nb)
      decreases if fast then 1 else 0, 0
    {
      hide Arene, Mots, EnListes, Vivants, BonneListe, Accorde, MeilleurChoix, Pages, AucunNeVa;
      if fast {
        Consolidate();
        RequestAgain(nb);
        mem := Malloc(nb - 7);
        return;
      }
      ghost var ouvert := a != map[];
      TeteDuTop();
      var oldTop := top;
      var oldSize := tetes[oldTop].taille;
      var oldEnd := oldTop + oldSize;
      PagesBorne(nb + MINSIZE - oldSize);
      var size := Pages(nb + MINSIZE - oldSize);
      var brk := -1;
      if size < 0x8000_0000 {
        brk := Sbrk(size);
      }
      if brk != -1 {
        if brk == oldEnd {
          Allonger(size);
        } else {
          Ouvrir(brk, size);
          ToutEstPris(nb);
        }
        PasTopMots();
        var p := top;
        size := tetes[p].taille;
        p := CouperLeTop(nb);
        return p + 8;
      }
      return 0;
    }

    /** The size word of top, whether or not there is an arena yet. */
    lemma TeteDuTop()
      requires Valid() && maxFast == MAX_FAST
      ensures top in tetes && tetes[top].taille == TailleTop() >= 0
      ensures a == map[] <==> Vierge()
      ensures a == map[] ==> top == 0 && TailleTop() == 0 && curptr == memHeap
      ensures a != map[] ==> Ouvert() && top + TailleTop() == curptr && TailleTop() % 8 == 0
      ensures a == map[] ==> Vivants(a) == map[]
    {
      if Ouvert() {
        TetesLa(a, base, tetes, pieds);
        assert Place(a, base, top, top);
      }
    }

    lemma ToutEstPris(nb: int)
      requires forall q :: !Libre(a, q)
      ensures AucunNeVa(nb)
    {
    }

    /** sbrk has given size more bytes at the end of top. */
    method Allonger(size: int)
      requires Limites() && EnListes() && size >= 0 && size % PAGE == 0 && curptr % PAGE == 0 && memHeap <= base
      requires Arene(a, base, top) && Mots(a, base, tetes, pieds) && Fin(a, top) + size == curptr
      modifies this`tetes, this`a
      ensures Ouvert() && EnListes() && Vivants(a) == old(Vivants(a))
      ensures top in a && old(top in a) && a[top].taille == old(a[top].taille) + size
      ensures forall nb :: old(AucunNeVa(nb)) ==> AucunNeVa(nb)
    {
      hide Mots, EnListes, BonneListe, Arene;
      TetesLa(a, base, tetes, pieds);
      Huitaine(size);
      EtendreArene(a, base, top, size);
      EtendreMots(a, base, top, size, tetes, pieds);
      SommetSeul(a, base, top);
      ghost var b := Etendre(a, top, size);
      assert Vivants(b) == Vivants(a);
      tetes := tetes[top := Mot(tetes[top].taille + size, true)];
      Remanier(b);
    }

    /** The end of malloc: take from top, or ask the system. */
    method UseTop(nb: int) returns (mem: int)
      requires Valid() && maxFast == MAX_FAST && AucunNeVa(nb)
      requires nb % 8 == 0 && MINSIZE <= nb < MOT - MINSIZE && (fast ==> nb < MIN_LARGE_SIZE)
      modifies this
      ensures Valid() && Rendu(old(Vivants(a)), old(dernier), mem, nb)
      decreases if fast then 1 else 0, 1
    {
      hide Arene, Mots, EnListes, Vivants, BonneListe, Accorde, MeilleurChoix, Pages, AucunNeVa;
      TeteDuTop();
      var size := tetes[top].taille;
      if size >= nb + MINSIZE {
        var p := CouperLeTop(nb);
        return p + 8;
      }
      mem := SysMalloc(nb);
    }

    /** The fastbin path of malloc. */
    method PrendreRapide(i: nat) returns (p: int)
      requires Ouvert() && EnListes() && any && i < 8 && i < |fb| && fb[i] != 0
      modifies this`fb, this`ls, this`a
      ensures Ouvert() && EnListes() && old(Ou(a, p)) == Rapide(i) && fast && p > 0
      ensures Accorde(a, old(Vivants(a)), p, 8 * (i + 2))
    {
      hide Arene, Mots, EnListes, ChangerLieu, Vivants, Accorde;
      ghost var a0 := a;
      PileRapide(i);
      p := Depiler(i);
      PasTop(a0, base, top, p);
      BougeChange(a0, p, Utilise);
      NeutreMots(a0, base, p, Utilise, tetes, pieds);
      TailleRapide(a0, base, top, p);
      AccordeEntier(a0, base, top, p, 8 * (i + 2));
    }

    /** Once a chunk has been freed, there is an arena. */
    lemma OuvertDonc()
      requires Valid() && any
      ensures Ouvert() && EnListes() && maxFast == MAX_FAST
    {
    }

    lemma PileRapide(i: nat)
      requires EnListes() && i < NFASTS && i < |fb| && fb[i] != 0
      ensures fast
    {
      TeteDePile(a, fd, bk, fb, ls, i);
    }

    lemma Servi(v: map<int, int>, d: int, p: int, nb: int)
      requires Accorde(a, v, p, nb)
      requires MeilleurChoix(a, top, p, nb) || (nb < MIN_LARGE_SIZE && p == d)
      ensures p > 0 && Rendu(v, d, p + 8, nb)
    {
    }

    lemma RienDeLibre(nb: int)
      requires Valid() && maxFast == MAX_FAST && !any
      ensures AucunNeVa(nb) && !fast
    {
      if Ouvert() { SansLibre(a, base, top, ls, any, fast); }
    }

    /** What malloc reads of the small bin of nb. */
    lemma PetiteListe(nb: int)
      requires Ouvert() && EnListes() && nb % 8 == 0 && MINSIZE <= nb < MIN_LARGE_SIZE
      ensures 2 <= nb / 8 < NSMALLBINS && Entete(nb / 8) in bk
      ensures var v := bk[Entete(nb / 8)];
        && (v == Entete(nb / 8) ==> BacVide(nb / 8))
        && (v != Entete(nb / 8) ==> v > 0 && Libre(a, v) && a[v].taille == nb && Convient(a, v, nb))
    {
      var i := nb / 8;
      FinDuBac(i);
      if ls.bacs[i] != [] {
        DuBac(a, base, top, ls, i, |ls.bacs[i]| - 1);
        BinIndexBorne(a[bk[Entete(i)]].taille);
        ConvientExact(a, bk[Entete(i)], nb);
      }
    }

    lemma PetitVide(nb: int)
      requires nb % 8 == 0 && MINSIZE <= nb < MIN_LARGE_SIZE && BacVide(nb / 8)
      ensures 2 <= BinIndex(nb) < NBINS && TropPetits(BinIndex(nb), nb)
    {
    }

    /** mALLOc */
    method Malloc(bytes: nat) returns (mem: int)
      requires Valid() && bytes < MOT
      modifies this
      ensures Valid()
      ensures bytes >= MOT - 2 * MINSIZE ==> mem == 0 && Vivants(a) == old(Vivants(a))
      ensures bytes < MOT - 2 * MINSIZE ==>
        || Rendu(old(Vivants(a)), old(dernier), mem, Request2Size(bytes))
        || (mem != 0 && old(Ou(a, mem - 8)) == Rapide(Request2Size(bytes) / 8 - 2)
            && Accorde(a, old(Vivants(a)), mem - 8, Request2Size(bytes)))
      ensures !old(fast) && bytes < MOT - 2 * MINSIZE ==> Rendu(old(Vivants(a)), old(dernier), mem, Request2Size(bytes))
      decreases if fast then 1 else 0, 2
    {
      hide Ouvert, Vierge, EnListes, Vivants, Accorde, MeilleurChoix, Convient, Rendu, Request2Size, BinIndex;
      ghost var v, d := Vivants(a), dernier;
      if bytes >= MOT - 2 * MINSIZE {
        return 0;
      }
      var nb := Request2Size(bytes);
      if !any {
        if maxFast == 0 {
          Consolidate();
        }
        RienDeLibre(nb);
        mem := UseTop(nb);
        return;
      }
      OuvertDonc();
      if nb <= maxFast {
        var i := nb / 8 - 2;
        LongueurFb();
        if fb[i] != 0 {
          var victim := PrendreRapide(i);
          return victim + 8;
        }
      }
      if nb < MIN_LARGE_SIZE {
        var idx := nb / 8;
        PetiteListe(nb);
        var victim := bk[Entete(idx)];
        if victim != Entete(idx) {
          ServirEntier(victim, nb);
          Servi(v, d, victim, nb);
          return victim + 8;
        }
      } else if fast {
        Consolidate();
        OuvertDonc();
      }
      var p := Balayer(nb);
      if p != 0 {
        Servi(v, d, p, nb);
        return p + 8;
      }
      if nb >= MIN_LARGE_SIZE {
        var victim := Scruter(nb);
        if victim != Entete(BinIndex(nb)) {
          Servir(victim, nb);
          Servi(v, d, victim, nb);
          return victim + 8;
        }
      } else {
        PetitVide(nb);
      }
      var victim := Parcourir(nb);
      if victim != 0 {
        Servir(victim, nb);
        Servi(v, d, victim, nb);
        return victim + 8;
      }
      mem := UseTop(nb);
    }
  }
}
