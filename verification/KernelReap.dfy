/** Reaping (kernel/processus.c:265-295): free_childs and free_mourant_queue. */
module KernelReap {
  import opened PriorityQueue
  import opened KernelState
  import opened KernelMoves

  /** One turn of the loop of free_childs: a zombie child is dying in its turn, any other
      child becomes an orphan. */
  function FreeChild(s: Noyau, c: int): (s': Noyau)
    ensures s'.procs.Keys == s.procs.Keys
  {
    if c !in s.procs then s
    else if s.procs[c].etat == ZOMBIE then
      Deplacer(s, c, s.procs[c].(etat := MOURANT), ProcMourants)
    else Maj(s, c, s.procs[c].(pere := NULL))
  }

  function FreeChilds(s: Noyau, fils: seq<int>): (s': Noyau)
    ensures s'.procs.Keys == s.procs.Keys
    decreases |fils|
  {
    if fils == [] then s else FreeChilds(FreeChild(s, fils[0]), fils[1..])
  }

  /** One turn of the loop of free_mourant_queue. */
  function FreeOne(s: Noyau): (s': Noyau)
    requires Chaine(s, ProcMourants) != [] && Chaine(s, ProcMourants)[0] in s.procs
    ensures s'.procs.Keys == s.procs.Keys - {Chaine(s, ProcMourants)[0]}
  {
    var p := Chaine(s, ProcMourants)[0];
    var s1 := FreeChilds(QueueDel(s, p), s.procs[p].fils);
    s1.(procs := s1.procs - {p}, libres := [p] + s1.libres)
  }

  /** The queue being drained may grow, but every turn takes one process out of the table.
      (The second test always fails under the invariant.) */
  function FreeMourantQueue(s: Noyau): Noyau
    decreases |s.procs|
  {
    if Chaine(s, ProcMourants) == [] then s
    else if Chaine(s, ProcMourants)[0] !in s.procs then s
    else
      assert FreeOne(s).procs.Keys < s.procs.Keys;
      TailleTable(s.procs, FreeOne(s).procs);
      FreeMourantQueue(FreeOne(s))
  }

  lemma TailleTable(m: map<int, Processus>, m': map<int, Processus>)
    requires m'.Keys < m.Keys
    ensures |m'| < |m|
  {
    TailleEnsembles(m'.Keys, m.Keys);
  }

  lemma {:induction false} TailleEnsembles(a: set<int>, b: set<int>)
    requires a < b
    ensures |a| < |b|
  {
    EnsembleVide(b);
    EnsembleVide(a);
    if a != {} {
      var x :| x in a;
      TailleEnsembles(a - {x}, b - {x});
    }
  }

  lemma EnsembleVide(a: set<int>)
    ensures a == {} || exists x :: x in a
  {
    if forall x :: x !in a { assert a == {}; }
  }

  // ----- Which processes are doomed -----------------------------------------------------

  /** In the dying queue, or a zombie at most n generations below a process that is. */
  ghost predicate CondamneEn(s: Noyau, p: int, n: nat)
    decreases n
  {
    p in s.procs &&
    (p in Chaine(s, ProcMourants) || (n > 0 && s.procs[p].etat == ZOMBIE && CondamneEn(s, s.procs[p].pere, n - 1)))
  }

  /** The closure of the dying queue under "zombie child of". */
  ghost predicate Condamne(s: Noyau, p: int) {
    exists n: nat :: CondamneEn(s, p, n)
  }

  /** What the draining loop relies on, and keeps. */
  ghost predicate Moissonnable(s: Noyau) {
    && Chainages(s) && Famille(s) && IDLE in s.procs && NULL !in s.procs
    && (forall p :: p in s.procs && s.procs[p].etat == ZOMBIE ==> s.procs[p].chainage == Libre)
    && (forall p :: p in Chaine(s, ProcMourants) && p in s.procs ==> s.procs[p].etat == MOURANT && p != IDLE)
    && (forall p :: p in s.procs && s.procs[p].etat == MOURANT && s.procs[p].chainage != Libre ==> s.procs[p].chainage == Dans(ProcMourants))
  }

  lemma CoherentMoissonnable(s: Noyau)
    requires Coherent(s)
    ensures Moissonnable(s)
  {
  }

  /** The record of a child once its father is gone. */
  function Orphelin(p: Processus): Processus {
    if p.etat == ZOMBIE then p.(etat := MOURANT, chainage := Dans(ProcMourants)) else p.(pere := NULL)
  }

  /** Same kernel but for the table, the free list and the dying queue. */
  ghost predicate MemeReste(s: Noyau, s': Noyau) {
    && s'.elu == s.elu && s'.files == s.files && s'.fidsLibres == s.fidsLibres
    && s'.sems == s.sems && s'.sidsLibres == s.sidsLibres
    && forall r :: r != ProcMourants ==> Chaine(s', r) == Chaine(s, r)
  }

  /** free_childs handles every child of the list once, and touches nobody else. */
  lemma {:induction false} FreeChildsEffet(s: Noyau, fils: seq<int>)
    requires Chainages(s) && NoDup(fils)
    decreases |fils|
    requires forall c :: c in fils ==> c in s.procs && (s.procs[c].etat == ZOMBIE ==> s.procs[c].chainage == Libre)
    ensures var s' := FreeChilds(s, fils);
      && Chainages(s') && MemeReste(s, s') && s'.libres == s.libres
      && (forall c :: c in s.procs ==> s'.procs[c] == if c in fils then Orphelin(s.procs[c]) else s.procs[c])
      && (forall c :: c in Chaine(s', ProcMourants) <==>
            c in Chaine(s, ProcMourants) || (c in fils && s.procs[c].etat == ZOMBIE))
  {
    if fils != [] {
      var c := fils[0];
      FreeChildEffet(s, c);
      var s1 := FreeChild(s, c);
      NoDupTail(fils);
      FreeChildsEffet(s1, fils[1..]);
    }
  }

  lemma FreeChildEffet(s: Noyau, c: int)
    requires Chainages(s) && c in s.procs && (s.procs[c].etat == ZOMBIE ==> s.procs[c].chainage == Libre)
    ensures var s' := FreeChild(s, c);
      && Chainages(s') && MemeReste(s, s') && s'.libres == s.libres
      && s'.procs == s.procs[c := Orphelin(s.procs[c])]
      && (forall x :: x in Chaine(s', ProcMourants) <==>
            x in Chaine(s, ProcMourants) || (x == c && s.procs[c].etat == ZOMBIE))
  {
    if s.procs[c].etat == ZOMBIE {
      ZombieMourant(s, c);
    } else {
      MajChainages(s, c, s.procs[c].(pere := NULL));
    }
  }

  lemma MajChainages(s: Noyau, p: int, rec: Processus)
    requires Chainages(s) && p in s.procs && rec.chainage == s.procs[p].chainage
    ensures Chainages(Maj(s, p, rec))
  {
    assert forall r :: Chaine(Maj(s, p, rec), r) == Chaine(s, r);
  }

  lemma ZombieMourant(s: Noyau, c: int)
    requires Chainages(s) && c in s.procs && s.procs[c].chainage == Libre
    ensures var s' := Deplacer(s, c, s.procs[c].(etat := MOURANT), ProcMourants);
      && Chainages(s') && MemeReste(s, s') && s'.libres == s.libres
      && s'.procs == s.procs[c := s.procs[c].(etat := MOURANT, chainage := Dans(ProcMourants))]
      && (forall x :: x in Chaine(s', ProcMourants) <==> x in Chaine(s, ProcMourants) || x == c)
  {
    var rec, q := s.procs[c].(etat := MOURANT), Chaine(s, ProcMourants);
    assert forall r :: c !in Chaine(s, r);
    assert forall r :: Without(Chaine(s, r), c) == Chaine(s, r);
    DeplacerEffet(s, c, rec, ProcMourants);
    DeplacerChainages(s, c, rec, ProcMourants);
    InsertElems(q, Rang(s.procs, ProcMourants, q, rec), c);
  }

  // ----- One turn -----------------------------------------------------------------------

  /** The kernel after the process `p` at the head of the dying queue has been freed. */
  ghost predicate Libere(s: Noyau, p: int, s': Noyau) {
    && MemeReste(s, s') && s'.libres == [p] + s.libres
    && s'.procs.Keys == s.procs.Keys - {p}
    && (forall x :: x in s'.procs ==>
          s'.procs[x] == if s.procs[x].pere == p && s.procs[x].etat != MOURANT then Orphelin(s.procs[x]) else s.procs[x])
    && (forall x :: x in Chaine(s', ProcMourants) <==>
          x != p && (x in Chaine(s, ProcMourants) || (x in s.procs && s.procs[x].etat == ZOMBIE && s.procs[x].pere == p)))
  }

  lemma OterDeTable(s: Noyau, p: int)
    requires Chainages(s) && p in s.procs && s.procs[p].chainage == Libre
    ensures Chainages(s.(procs := s.procs - {p}, libres := [p] + s.libres))
  {
    var s' := s.(procs := s.procs - {p}, libres := [p] + s.libres);
    assert forall r :: Chaine(s', r) == Chaine(s, r);
  }

  lemma RetirerMourant(s: Noyau, p: int)
    requires Moissonnable(s) && p in Chaine(s, ProcMourants)
    ensures var s0 := QueueDel(s, p);
      && Chainages(s0) && MemeReste(s, s0) && s0.libres == s.libres
      && s0.procs == s.procs[p := s.procs[p].(chainage := Libre)]
      && (forall x :: x in Chaine(s0, ProcMourants) <==> x in Chaine(s, ProcMourants) && x != p)
  {
    QueueDelEffet(s, p);
    assert Detacher(s, p, s.procs[p]) == QueueDel(s, p);
    DetacherChainages(s, p, s.procs[p]);
    WithoutElems(Chaine(s, ProcMourants), p);
  }

  lemma FreeOneEffet(s: Noyau)
    requires Moissonnable(s) && Chaine(s, ProcMourants) != []
    ensures var p := Chaine(s, ProcMourants)[0];
            p in s.procs && Libere(s, p, FreeOne(s)) && Chainages(FreeOne(s))
  {
    var p := Chaine(s, ProcMourants)[0];
    assert p in Chaine(s, ProcMourants);
    var s0, fils := QueueDel(s, p), s.procs[p].fils;
    RetirerMourant(s, p);
    FilsDe(s, p);
    FreeChildsEffet(s0, fils);
    OterDeTable(FreeChilds(s0, fils), p);
  }

  /** The list of a dying process names exactly its living or zombie children. */
  lemma FilsDe(s: Noyau, p: int)
    requires Moissonnable(s) && p in s.procs && s.procs[p].etat == MOURANT
    ensures NoDup(s.procs[p].fils) && p !in s.procs[p].fils
    ensures forall c :: c in s.procs[p].fils <==> c in s.procs && s.procs[c].pere == p && s.procs[c].etat != MOURANT
  {
  }

  /** Families survive the loss of a process nobody lists, once its children are orphaned. */
  lemma FamilleSans(s: Noyau, p: int, s': Noyau)
    requires Famille(s) && p in s.procs && p != IDLE && NULL !in s.procs
    requires s.procs[p].etat == MOURANT
    requires s'.procs.Keys == s.procs.Keys - {p}
    requires forall x :: x in s'.procs ==> s'.procs[x].fils == s.procs[x].fils && s'.procs[x].suite == s.procs[x].suite
    requires forall x :: x in s'.procs && s.procs[x].pere != p ==> s'.procs[x] == s.procs[x]
    requires forall x :: x in s'.procs && s.procs[x].pere == p ==> s'.procs[x].etat == MOURANT || s'.procs[x].pere == NULL
    ensures Famille(s')
  {
    forall q, c | q in s'.procs && c in s'.procs[q].fils
      ensures c in s'.procs && s'.procs[c].pere == q && s'.procs[c].etat != MOURANT
    {
      assert c in s.procs[q].fils;
    }
    forall c | c in s'.procs && s'.procs[c].etat != MOURANT && s'.procs[c].pere != NULL
      ensures s'.procs[c].pere in s'.procs && c in s'.procs[s'.procs[c].pere].fils
    {
      assert s'.procs[c] == s.procs[c];
    }
  }

  lemma FreeOneMoissonnable(s: Noyau, p: int, s': Noyau)
    requires Moissonnable(s) && p in Chaine(s, ProcMourants) && Libere(s, p, s') && Chainages(s')
    ensures Moissonnable(s')
  {
    assert p != IDLE;
    FamilleSans(s, p, s');
    forall x | x in s'.procs
      ensures s'.procs[x].etat == ZOMBIE ==> s'.procs[x].chainage == Libre
      ensures s'.procs[x].etat == MOURANT && s'.procs[x].chainage != Libre ==> s'.procs[x].chainage == Dans(ProcMourants)
      ensures x in Chaine(s', ProcMourants) ==> s'.procs[x].etat == MOURANT && x != IDLE
    {
      assert s'.procs[x] == s.procs[x] || s'.procs[x] == Orphelin(s.procs[x]);
    }
  }

  lemma {:induction false} CondamneApres(s: Noyau, p: int, s': Noyau, x: int, n: nat)
    requires Moissonnable(s) && p in Chaine(s, ProcMourants) && Libere(s, p, s')
    requires CondamneEn(s, x, n) && x != p
    ensures Condamne(s', x)
    decreases n
  {
    if x in Chaine(s', ProcMourants) {
      assert CondamneEn(s', x, 0);
    } else {
      var q := s.procs[x].pere;
      assert q != p;
      CondamneApres(s, p, s', q, n - 1);
      var m: nat :| CondamneEn(s', q, m);
      assert s'.procs[x] == s.procs[x];
      assert CondamneEn(s', x, m + 1);
    }
  }

  lemma {:induction false} CondamneAvant(s: Noyau, p: int, s': Noyau, x: int, n: nat)
    requires Moissonnable(s) && p in Chaine(s, ProcMourants) && Libere(s, p, s')
    requires CondamneEn(s', x, n)
    ensures Condamne(s, x) && x != p
    decreases n
  {
    if x in Chaine(s, ProcMourants) {
      assert CondamneEn(s, x, 0);
    } else if x in Chaine(s', ProcMourants) {
      assert CondamneEn(s, p, 0);
      assert CondamneEn(s, x, 1);
    } else {
      var q := s'.procs[x].pere;
      CondamneAvant(s, p, s', q, n - 1);
      var m: nat :| CondamneEn(s, q, m);
      assert s'.procs[x] == s.procs[x];
      assert CondamneEn(s, x, m + 1);
    }
  }

  /** Freeing one process neither saves nor dooms any other. */
  lemma CondamneInchange(s: Noyau, p: int, s': Noyau, x: int)
    requires Moissonnable(s) && p in Chaine(s, ProcMourants) && Libere(s, p, s')
    ensures Condamne(s', x) <==> Condamne(s, x) && x != p
  {
    if Condamne(s, x) && x != p {
      var n: nat :| CondamneEn(s, x, n);
      CondamneApres(s, p, s', x, n);
    }
    if Condamne(s', x) {
      var n: nat :| CondamneEn(s', x, n);
      CondamneAvant(s, p, s', x, n);
    }
  }

  // ----- The whole loop -----------------------------------------------------------------

  ghost function Survivant(s: Noyau, x: int): Processus
    requires x in s.procs
  {
    if s.procs[x].etat != MOURANT && Condamne(s, s.procs[x].pere) then s.procs[x].(pere := NULL) else s.procs[x]
  }

  /** What reaping does: the doomed disappear and give their pids back, their other children
      are orphaned, nothing else changes. */
  ghost predicate Moissonne(s: Noyau, s': Noyau) {
    && MemeReste(s, s') && Chaine(s', ProcMourants) == []
    && (forall x :: x in s'.procs <==> x in s.procs && !Condamne(s, x))
    && (forall x :: x in s'.procs ==> x in s.procs && s'.procs[x] == Survivant(s, x))
  }

  ghost predicate PidsRendus(s: Noyau, s': Noyau, morts: seq<int>) {
    && s'.libres == morts + s.libres && NoDup(morts)
    && forall x :: x in morts <==> Condamne(s, x)
  }

  lemma {:induction false} FreeMourantQueueExact(s: Noyau) returns (morts: seq<int>)
    requires Moissonnable(s)
    ensures Moissonne(s, FreeMourantQueue(s)) && Moissonnable(FreeMourantQueue(s))
    ensures PidsRendus(s, FreeMourantQueue(s), morts)
    decreases |s.procs|
  {
    if Chaine(s, ProcMourants) == [] {
      forall x ensures !Condamne(s, x) {
        forall n: nat ensures !CondamneEn(s, x, n) { PersonneCondamne(s, x, n); }
      }
      morts := [];
    } else {
      var p := Chaine(s, ProcMourants)[0];
      assert p in Chaine(s, ProcMourants);
      FreeOneEffet(s);
      var s1 := FreeOne(s);
      FreeOneMoissonnable(s, p, s1);
      TailleTable(s.procs, s1.procs);
      assert CondamneEn(s, p, 0);
      forall x ensures Condamne(s1, x) <==> Condamne(s, x) && x != p {
        CondamneInchange(s, p, s1, x);
      }
      morts := FreeMourantQueueExact(s1);
      SurvivantApres(s, p, s1, FreeMourantQueue(s1));
      morts := AjoutFin(s, s1, p, morts, FreeMourantQueue(s1));
    }
  }

  lemma {:induction false} PersonneCondamne(s: Noyau, x: int, n: nat)
    requires Chaine(s, ProcMourants) == []
    ensures !CondamneEn(s, x, n)
    decreases n
  {
    if x in s.procs && n > 0 {
      PersonneCondamne(s, s.procs[x].pere, n - 1);
    }
  }

  lemma SurvivantApres(s: Noyau, p: int, s1: Noyau, s': Noyau)
    requires Moissonnable(s) && p in Chaine(s, ProcMourants) && Libere(s, p, s1) && Moissonne(s1, s')
    requires forall x :: Condamne(s1, x) <==> Condamne(s, x) && x != p
    requires Condamne(s, p)
    ensures Moissonne(s, s')
  {
    forall x | x in s'.procs ensures x in s.procs && s'.procs[x] == Survivant(s, x) {
      assert s'.procs[x] == Survivant(s1, x);
      if s.procs[x].pere == p && s.procs[x].etat == ZOMBIE {
        assert CondamneEn(s, p, 0);
        assert CondamneEn(s, x, 1);
        assert false;
      }
    }
  }

  lemma AjoutFin(s: Noyau, s1: Noyau, p: int, morts: seq<int>, s': Noyau) returns (tous: seq<int>)
    requires PidsRendus(s1, s', morts) && s1.libres == [p] + s.libres && Condamne(s, p)
    requires forall x :: Condamne(s1, x) <==> Condamne(s, x) && x != p
    ensures PidsRendus(s, s', tous)
  {
    tous := Insert(morts, |morts|, p);
    assert tous == morts + [p];
    assert p !in morts;
    InsertElems(morts, |morts|, p);
  }
}
