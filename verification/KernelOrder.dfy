/** First come, first served: no step lets a ready process be overtaken by one that does not outrank
    it. */
module KernelOrder {
  import opened PriorityQueue
  import opened KernelState
  import opened KernelMoves
  import opened KernelReap
  import opened KernelSched
  import opened KernelWake
  import opened KernelFiles
  import opened KernelSem
  import opened KernelStart
  import opened KernelDeath
  import opened KernelClock
  import opened KernelFollow
  import opened KernelSteps
  import opened KernelTraffic
  import opened KernelAnswers
  import opened KernelWrites
  import opened KernelReplies
  import opened KernelEffects

  /** In the ready queue of `s'`, whoever stands before a process that was ready in `s` outranks it,
      or was ready in `s` too, and before it. */
  ghost predicate Ordre(s: Noyau, s': Noyau) {
    var q, q2 := Chaine(s, ProcActivables), Chaine(s', ProcActivables);
    forall i, j {:trigger Lt(i, j)} ::
      (0 <= i && Lt(i, j) && j < |q2| && q2[j] in q && CleDe(s'.procs, Prio, q2[i]) <= CleDe(s'.procs, Prio, q2[j])) ==>
      q2[i] in q && SlotOf(q, q2[i]) < SlotOf(q, q2[j])
  }

  lemma AuRang<T>(q: seq<T>, i: nat)
    requires NoDup(q) && i < |q|
    ensures q[i] in q && SlotOf(q, q[i]) == i
  {
    var k := SlotOf(q, q[i]);
    assert k == i || Lt(k, i);
  }

  lemma OrdreMeme(s: Noyau, s': Noyau)
    requires NoDup(Chaine(s, ProcActivables)) && Chaine(s', ProcActivables) == Chaine(s, ProcActivables)
    ensures Ordre(s, s')
  {
    var q := Chaine(s, ProcActivables);
    forall i, j | 0 <= i && Lt(i, j) && j < |q| ensures q[i] in q && SlotOf(q, q[i]) < SlotOf(q, q[j]) {
      AuRang(q, i);
      AuRang(q, j);
    }
  }

  lemma OrdreInsere(s: Noyau, s': Noyau, k: nat, p: int)
    requires var q := Chaine(s, ProcActivables);
      && NoDup(q) && p !in q && k <= |q| && Chaine(s', ProcActivables) == Insert(q, k, p)
      && forall i :: k <= i < |q| ==> CleDe(s'.procs, Prio, q[i]) < CleDe(s'.procs, Prio, p)
    ensures Ordre(s, s')
  {
    var q, q2 := Chaine(s, ProcActivables), Chaine(s', ProcActivables);
    forall i, j | 0 <= i && Lt(i, j) && j < |q2| && q2[j] in q && CleDe(s'.procs, Prio, q2[i]) <= CleDe(s'.procs, Prio, q2[j])
      ensures q2[i] in q && SlotOf(q, q2[i]) < SlotOf(q, q2[j])
    {
      var b := if j < k then j else j - 1;
      assert q2[j] == q[b];
      var a := if i < k then i else i - 1;
      assert q2[i] == q[a];
      AuRang(q, a);
      AuRang(q, b);
    }
  }

  lemma OrdreSans(s: Noyau, s': Noyau, p: int)
    requires NoDup(Chaine(s, ProcActivables)) && Chaine(s', ProcActivables) == Without(Chaine(s, ProcActivables), p)
    ensures Ordre(s, s')
  {
    var q, q2 := Chaine(s, ProcActivables), Chaine(s', ProcActivables);
    if p in q {
      var k := SlotOf(q, p);
      forall i, j | 0 <= i && Lt(i, j) && j < |q2| ensures q2[i] in q && q2[j] in q && SlotOf(q, q2[i]) < SlotOf(q, q2[j]) {
        AuRang(q, if i < k then i else i + 1);
        AuRang(q, if j < k then j else j + 1);
      }
    } else {
      OrdreMeme(s, s');
    }
  }

  /** Two stages, nobody leaving the queue in the first to come back in the second. */
  lemma OrdrePuis(s: Noyau, s1: Noyau, s2: Noyau)
    requires Ordre(s, s1) && Ordre(s1, s2)
    requires forall x :: x in Chaine(s, ProcActivables) && x in Chaine(s2, ProcActivables) ==> x in Chaine(s1, ProcActivables)
    requires forall x :: x in Chaine(s1, ProcActivables) && x in Chaine(s2, ProcActivables) ==> CleDe(s1.procs, Prio, x) == CleDe(s2.procs, Prio, x)
    ensures Ordre(s, s2)
  {
    var q, q1, q2 := Chaine(s, ProcActivables), Chaine(s1, ProcActivables), Chaine(s2, ProcActivables);
    forall i, j | 0 <= i && Lt(i, j) && j < |q2| && q2[j] in q && CleDe(s2.procs, Prio, q2[i]) <= CleDe(s2.procs, Prio, q2[j])
      ensures q2[i] in q && SlotOf(q, q2[i]) < SlotOf(q, q2[j])
    {
      assert q2[i] in q2 && q2[j] in q2;
      assert Lt(SlotOf(q1, q2[i]), SlotOf(q1, q2[j]));
    }
  }

  // ----- The pieces -----------------------------------------------------------------------------------

  /** Joining the ready queue. */
  lemma OrdreAjout(s: Noyau, p: int, rec: Processus)
    requires Chainages(s) && p in s.procs && s.procs[p].chainage != Dans(ProcActivables)
    ensures Ordre(s, Deplacer(s, p, rec, ProcActivables))
  {
    hide Deplacer, Ordre;
    var q := Chaine(s, ProcActivables);
    DeplacerEffet(s, p, rec, ProcActivables);
    HorsFile(s, p, ProcActivables);
    var k, keys := Rang(s.procs, ProcActivables, q, rec), Cles(s.procs, Prio, q);
    forall i | k <= i < |q| ensures CleDe(s.procs, Prio, q[i]) < rec.prio { assert keys[i] == CleDe(s.procs, Prio, q[i]); }
    OrdreInsereSur(s, Deplacer(s, p, rec, ProcActivables), k, p, rec);
  }

  lemma OrdreInsereSur(s: Noyau, s': Noyau, k: nat, p: int, rec: Processus)
    requires s'.procs == s.procs[p := rec.(chainage := Dans(ProcActivables))]
    requires var q := Chaine(s, ProcActivables);
      && NoDup(q) && p !in q && k <= |q| && Chaine(s', ProcActivables) == Insert(q, k, p)
      && forall i :: k <= i < |q| ==> CleDe(s.procs, Prio, q[i]) < rec.prio
    ensures Ordre(s, s')
  {
    hide Ordre;
    var q := Chaine(s, ProcActivables);
    forall i | k <= i < |q| ensures CleDe(s'.procs, Prio, q[i]) < CleDe(s'.procs, Prio, p) {
      assert q[i] in q;
    }
    OrdreInsere(s, s', k, p);
  }

  lemma OrdreReveil(s: Noyau, p: int, rec: Processus)
    requires Chainages(s) && p in s.procs && s.procs[p].chainage != Dans(ProcActivables)
    ensures Ordre(s, Reveil(s, p, rec))
  {
    hide Deplacer, Ordre;
    OrdreAjout(s, p, rec.(etat := ACTIVABLE));
  }

  /** Stages that keep priorities, and only add to the queue in between. */
  ghost predicate MemePrio(s: Noyau, s': Noyau) {
    forall x :: x in s.procs && x in s'.procs ==> s'.procs[x].prio == s.procs[x].prio
  }

  lemma OrdreEnsuite(s: Noyau, s1: Noyau, s2: Noyau)
    requires Ordre(s, s1) && Ordre(s1, s2) && Chainages(s1) && Chainages(s2) && MemePrio(s1, s2)
    requires forall x :: x in Chaine(s, ProcActivables) && x in Chaine(s2, ProcActivables) ==> x in Chaine(s1, ProcActivables)
    ensures Ordre(s, s2)
  {
    hide Ordre;
    forall x | x in Chaine(s1, ProcActivables) && x in Chaine(s2, ProcActivables) ensures CleDe(s1.procs, Prio, x) == CleDe(s2.procs, Prio, x) {
      assert x in s1.procs && x in s2.procs;
    }
    OrdrePuis(s, s1, s2);
  }

  lemma OrdreMoisson(s: Noyau)
    requires Coherent(s) && !Condamne(s, s.elu)
    ensures Ordre(s, FreeMourantQueue(s)) && MemePrio(s, FreeMourantQueue(s))
    ensures Chaine(FreeMourantQueue(s), ProcActivables) == Chaine(s, ProcActivables)
    ensures Coherent(FreeMourantQueue(s))
  {
    hide FreeMourantQueue, Ordre, Tri, Files, Sems, Famille;
    MoissonCoherent(s);
    OrdreMeme(s, FreeMourantQueue(s));
  }

  lemma OrdreElire(s: Noyau, s2: Noyau, s': Noyau)
    requires Chainages(s) && s.elu in s.procs && s.procs[s.elu].chainage != Dans(ProcActivables)
    requires Chaine(s, ProcActivables) != [] && Chaine(s2, ProcActivables) == FilePrete(s)
    requires s2.procs == s.procs[s.elu := Remis(s.procs[s.elu])] && MemePrio(s2, s') && Chainages(s') && Chainages(s2)
    requires Chaine(s', ProcActivables) == FilePrete(s)[1..]
    ensures Ordre(s, s')
  {
    hide Ordre;
    var q, e := Chaine(s, ProcActivables), s.procs[s.elu];
    HorsFile(s, s.elu, ProcActivables);
    if e.etat == ELU {
      var k, keys := Rang(s.procs, ProcActivables, q, e), Cles(s.procs, Prio, q);
      forall i | k <= i < |q| ensures CleDe(s.procs, Prio, q[i]) < e.prio { assert keys[i] == CleDe(s.procs, Prio, q[i]); }
      InsertElems(q, k, s.elu);
      OrdreInsereSur(s, s2, k, s.elu, e.(etat := ACTIVABLE));
    } else {
      OrdreMeme(s, s2);
    }
    OrdreTete(s2, s');
    OrdreEnsuite(s, s2, s');
  }

  lemma OrdreTete(s: Noyau, s': Noyau)
    requires Chainages(s) && Chaine(s, ProcActivables) != [] && Chaine(s', ProcActivables) == Chaine(s, ProcActivables)[1..]
    ensures Ordre(s, s')
  {
    WithoutHead(Chaine(s, ProcActivables));
    OrdreSans(s, s', Chaine(s, ProcActivables)[0]);
  }

  lemma OrdreCommutation(s: Noyau)
    requires Coherent(s) && DefuntsSansPere(s) && s.procs[s.elu].chainage != Dans(ProcMourants)
    ensures Ordre(s, Commutation(s)) && MemePrio(s, Commutation(s))
  {
    hide Commutation, Ordre, Tri, Files, Sems, Famille;
    CommutationInv(s);
    if Chaine(s, ProcActivables) == [] {
      CommutationRien(s);
      OrdreMeme(s, s);
    } else {
      var s2, n := CommutationEffet(s);
      OrdreElire(s, s2, Commutation(s));
    }
  }

  lemma CommutationRien(s: Noyau)
    requires s.elu in s.procs && Chaine(s, ProcActivables) == []
    ensures Commutation(s) == s
  {
  }

  lemma OrdreOrdonnanceur(s: Noyau)
    requires Coherent(s) && DefuntsSansPere(s) && !Condamne(s, s.elu)
    ensures Ordre(s, Ordonnanceur(s))
  {
    hide Ordonnanceur, Commutation, FreeMourantQueue, Ordre, MemePrio, Tri, Files, Sems, Famille;
    OrdonnanceurInv(s);
    MoissonCoherent(s);
    OrdreMoisson(s);
    var s1 := FreeMourantQueue(s);
    MoissonHorsMourants(s1);
    OrdreCommutation(s1);
    OrdreEnsuite(s, s1, Ordonnanceur(s));
  }

  /** A call that ends by switching, perhaps. */
  lemma OrdreFinir(s: Noyau, s1: Noyau, commute: bool)
    requires Coherent(s1) && DefuntsSansPere(s1) && s1.procs[s1.elu].etat == ELU && Ordre(s, s1)
    requires forall x :: x in Chaine(s, ProcActivables) ==> x in Chaine(s1, ProcActivables)
    ensures Ordre(s, Finir(s1, commute))
  {
    hide Ordonnanceur, Ordre, Tri, Files, Sems, Famille;
    if commute {
      EluSauf(s1);
      OrdonnanceurInv(s1);
      OrdreOrdonnanceur(s1);
      PrioGardee(s1);
      OrdreEnsuite(s, s1, Ordonnanceur(s1));
    }
  }

  lemma PrioGardee(s: Noyau)
    requires Coherent(s) && DefuntsSansPere(s) && !Condamne(s, s.elu)
    ensures MemePrio(s, Ordonnanceur(s))
  {
    hide Ordonnanceur;
    SuiviOrdonnanceur(s);
  }

  /** The caller blocks, or dies. */
  lemma OrdreQuitte(s: Noyau, s1: Noyau)
    requires Coherent(s1) && DefuntsSansPere(s1) && !Condamne(s1, s1.elu) && Ordre(s, s1)
    requires forall x :: x in Chaine(s, ProcActivables) ==> x in Chaine(s1, ProcActivables)
    ensures Ordre(s, Ordonnanceur(s1))
  {
    hide Ordonnanceur, Ordre, Tri, Files, Sems, Famille;
    OrdonnanceurInv(s1);
    OrdreOrdonnanceur(s1);
    PrioGardee(s1);
    OrdreEnsuite(s, s1, Ordonnanceur(s1));
  }

  lemma OrdreSuspendu(s: Noyau, rec: Processus, r: Anneau)
    requires Inv(s) && s.elu != IDLE && r != ProcActivables
    requires rec.prio == Elu(s).prio && rec.pere == Elu(s).pere && rec.fils == Elu(s).fils && AttenteFondee(rec)
    requires EnAttente(rec.etat) && Accord(rec.(chainage := Dans(r))) && Admis(s, rec, r)
    ensures Ordre(s, Ordonnanceur(Deplacer(s, s.elu, rec, r)))
  {
    hide Ordonnanceur, Deplacer, Ordre, Admis, Tri, Files, Sems, Famille;
    var s1 := Deplacer(s, s.elu, rec, r);
    HorsFile(s, s.elu, ProcActivables);
    DeplacerCoherent(s, s.elu, rec, r);
    DeplacerEffet(s, s.elu, rec, r);
    DeplacerElu(s, s.elu, rec, r);
    EluSauf(s1);
    OrdreMeme(s, s1);
    OrdreQuitte(s, s1);
  }

  // ----- Waking several ---------------------------------------------------------------------------------

  lemma {:induction false} OrdreListe(s: Noyau, r: Anneau, status: int)
    requires Coherent(s) && FileDAttente(r) && s.procs[s.elu].etat == ELU
    ensures Ordre(s, ReveillerListe(s, Chaine(s, r), status))
    decreases |Chaine(s, r)|
  {
    hide Ordre, Reveil, Tri, Files, Sems, Famille;
    var q := Chaine(s, r);
    if q == [] {
      OrdreMeme(s, s);
    } else {
      var p := q[0];
      TeteBloquee(s, r);
      var rec := Marque(s.procs[p], status);
      var s1 := Reveil(s, p, rec);
      MarqueReveil(s, p, status);
      WithoutHead(q);
      assert Chaine(s1, r) == q[1..];
      OrdreReveil(s, p, rec);
      OrdreListe(s1, r, status);
      ReveillerListeEffet(s1, r, status);
      ListePrio(s1, r, status, ReveillerListe(s1, q[1..], status));
      OrdreEnsuite(s, s1, ReveillerListe(s1, q[1..], status));
    }
  }

  lemma MarqueReveil(s: Noyau, p: int, status: int)
    requires Coherent(s) && p in s.procs && p != s.elu && (s.procs[p].etat == ATTEND_FILE || s.procs[p].etat == ATTEND_SEMAPHORE)
    ensures var rec := Marque(s.procs[p], status);
      && Coherent(Reveil(s, p, rec)) && Activee(s, p, rec, Reveil(s, p, rec)) && s.procs[p].chainage != Dans(ProcActivables)
  {
    hide Reveil, Tri, Files, Sems;
    ReveilCoherent(s, p, Marque(s.procs[p], status));
  }

  lemma ListePrio(s: Noyau, r: Anneau, status: int, s': Noyau)
    requires Videe(s, r, status, s')
    ensures MemePrio(s, s')
  {
  }

  lemma {:induction false} OrdreEveiller(s: Noyau, q: seq<int>, m: nat)
    requires Coherent(s) && s.procs[s.elu].etat == ELU && q == Chaine(s, ProcEndormis) && m <= |q|
    ensures Ordre(s, Eveiller(s, q, m))
    decreases |q|
  {
    hide Ordre, Reveil, Without, Tri, Files, Sems, Famille;
    if |q| == m {
      OrdreMeme(s, s);
    } else {
      var p := q[|q|-1];
      assert p in q;
      EndormiReveil(s, p);
      var s1 := Reveil(s, p, s.procs[p]);
      WithoutLast(q);
      assert Chaine(s1, ProcEndormis) == q[..|q|-1];
      OrdreReveil(s, p, s.procs[p]);
      OrdreEveiller(s1, q[..|q|-1], m);
      EveillerEffet(s1, m);
      EveillesPrio(s1, m, Eveiller(s1, q[..|q|-1], m));
      OrdreEnsuite(s, s1, Eveiller(s1, q[..|q|-1], m));
    }
  }

  lemma EndormiReveil(s: Noyau, p: int)
    requires Coherent(s) && p in Chaine(s, ProcEndormis) && s.procs[s.elu].etat == ELU
    ensures p in s.procs && p != s.elu && s.procs[p].chainage != Dans(ProcActivables)
    ensures Coherent(Reveil(s, p, s.procs[p])) && Activee(s, p, s.procs[p], Reveil(s, p, s.procs[p]))
  {
    hide Reveil, Tri, Files, Sems;
    ReveilCoherent(s, p, s.procs[p]);
  }

  lemma EveillesPrio(s: Noyau, m: nat, s': Noyau)
    requires Eveilles(s, m, s')
    ensures MemePrio(s, s')
  {
  }

  // ----- The calls --------------------------------------------------------------------------------------

  lemma OrdreStart(s: Noyau, prio: int, alloue: bool)
    requires Inv(s)
    ensures Ordre(s, Start(s, prio, alloue).s)
  {
    hide Ordre, Finir, Inscrit, QueueAdd, Deplacer, Coherent;
    Sujet(s, s.elu);
    SansDoublon(s);
    if StartValide(s, prio, alloue) {
      var s1, pid := Inscrit(s, Nouveau(s, prio, ZOMBIE)), s.libres[0];
      var s2 := NouveauPret(s, prio);
      InscritCoherent(s, prio);
      InscritAutrement(s, prio);
      NouveauLibre(s, prio);
      OrdreAjout(s1, pid, Nouveau(s, prio, ACTIVABLE));
      OrdreDe(s, s1, s2);
      OrdreFinir(s, s2, prio > Elu(s).prio);
    } else {
      OrdreMeme(s, s);
    }
  }

  lemma SansDoublon(s: Noyau)
    requires Inv(s)
    ensures NoDup(Chaine(s, ProcActivables)) && Chainages(s)
  {
  }

  lemma NouveauLibre(s: Noyau, prio: int)
    requires s.libres != [] && s.elu in s.procs && Coherent(Inscrit(s, Nouveau(s, prio, ZOMBIE)))
    ensures var s1 := Inscrit(s, Nouveau(s, prio, ZOMBIE));
      Chainages(s1) && s.libres[0] in s1.procs && s1.procs[s.libres[0]].chainage == Libre
  {
  }

  /** The order looks only at the queue of the state it starts from. */
  lemma OrdreDe(s: Noyau, s1: Noyau, s': Noyau)
    requires Ordre(s1, s') && Chaine(s1, ProcActivables) == Chaine(s, ProcActivables)
    ensures Ordre(s, s')
  {
  }

  lemma OrdreMourir(s: Noyau, e: Processus, reveille: bool)
    requires Inv(s) && s.elu != IDLE && e == Elu(s).(retval := e.retval) && !Quitter(Mourir(s, e, reveille)).Panique?
    ensures Quitter(Mourir(s, e, reveille)).Suspend? && Ordre(s, Quitter(Mourir(s, e, reveille)).s)
  {
    hide Ordre, FreeMourantQueue, Ordonnanceur, Mourir, Coherent, DefuntsSansPere;
    SansAttente(s);
    ParentFonde(s);
    MourirInv(s, e, reveille);
    QuitterInv(Mourir(s, e, reveille));
    MourirOrdre(s, e, reveille);
    OrdreQuitte(s, Mourir(s, e, reveille));
  }

  lemma MourirOrdre(s: Noyau, e: Processus, reveille: bool)
    requires Inv(s) && s.elu != IDLE && e == Elu(s).(retval := e.retval)
    ensures s.elu in s.procs && Ordre(s, Mourir(s, e, reveille))
    ensures forall x :: x in Chaine(s, ProcActivables) ==> x in Chaine(Mourir(s, e, reveille), ProcActivables)
  {
    hide Ordre, Detacher, ReveilPere, Tri, Files, Sems, Trie;
    var rec := e.(etat := if e.pere != NULL then ZOMBIE else MOURANT);
    var s1 := Detacher(s, s.elu, rec);
    HorsFile(s, s.elu, ProcActivables);
    DetacherEffet(s, s.elu, rec);
    OrdreMeme(s, s1);
    if reveille && e.pere != NULL {
      ZombieCoherent(s, s.elu, rec);
      OrdrePere(s1, e.pere);
      PereReveille(s1, e.pere);
      OrdreDe(s, s1, ReveilPere(s1, e.pere));
    }
  }

  lemma OrdrePere(s: Noyau, pere: int)
    requires Coherent(s)
    ensures Ordre(s, ReveilPere(s, pere))
  {
    hide Ordre, Reveil, Tri, Files, Sems;
    if pere in s.procs && s.procs[pere].etat == ATTEND_FILS {
      PereHors(s, pere);
      OrdreReveil(s, pere, s.procs[pere]);
    } else {
      OrdreMeme(s, s);
    }
  }

  lemma OrdreKill(s: Noyau, pid: int)
    requires Inv(s) && s.elu != IDLE && !Kill(s, pid).Panique?
    ensures Ordre(s, Kill(s, pid).s)
  {
    hide Ordre, FreeMourantQueue, Kill, Frappe, Mourir, Quitter, Inv;
    SansDoublon(s);
    Sujet(s, s.elu);
    if !KillValide(s, pid) {
      Refus(s, SysKill(pid));
      KillAbsent(s, pid);
      KillRefuse(s, pid);
      OrdreMeme(s, s);
    } else if pid == s.elu {
      KillSoi(s);
      OrdreMourir(s, Elu(s), false);
    } else {
      KillFrappe(s, pid);
      OrdreFrappe(s, pid);
      FrappeCoherent(s, pid);
      OrdreMoisson(Frappe(s, pid));
      ReapOrdre(s, Frappe(s, pid));
    }
  }

  lemma KillRefuse(s: Noyau, pid: int)
    requires s.elu in s.procs && !KillValide(s, pid)
    ensures Kill(s, pid) == Rend(s, -1, 0)
  {
  }

  lemma FrappeCoherent(s: Noyau, pid: int)
    requires Inv(s) && KillValide(s, pid) && pid != s.elu
    ensures Coherent(Frappe(s, pid)) && Frappe(s, pid).elu in Frappe(s, pid).procs && !Condamne(Frappe(s, pid), Frappe(s, pid).elu)
  {
    hide Frappe, Mort;
    FrappeEffet(s, pid);
    EluSauf(Frappe(s, pid));
  }

  lemma ReapOrdre(s: Noyau, s2: Noyau)
    requires Coherent(s2) && Coherent(FreeMourantQueue(s2)) && Ordre(s, s2)
    requires Chaine(FreeMourantQueue(s2), ProcActivables) == Chaine(s2, ProcActivables)
    requires MemePrio(s2, FreeMourantQueue(s2)) && Ordre(s2, FreeMourantQueue(s2))
    ensures Ordre(s, FreeMourantQueue(s2))
  {
    hide FreeMourantQueue, Ordre, Tri, Files, Sems, Famille, Etats, Table;
    OrdreEnsuite(s, s2, FreeMourantQueue(s2));
  }

  lemma OrdreFrappe(s: Noyau, pid: int)
    requires Inv(s) && KillValide(s, pid) && pid != s.elu
    ensures Ordre(s, Frappe(s, pid))
  {
    hide Ordre, Detacher, Deplacer, ReveilPere, Without, Tri, Files, Sems, Trie;
    var p := s.procs[pid];
    if p.pere != NULL {
      var s1 := Detacher(s, pid, p.(etat := ZOMBIE));
      ZombieCoherent(s, pid, p.(etat := ZOMBIE));
      DetacherEffet(s, pid, p.(etat := ZOMBIE));
      OrdreSans(s, s1, pid);
      OrdrePere(s1, p.pere);
      ReveilPereCoherent(s1, p.pere);
      PereReveille(s1, p.pere);
      FrappeSuite(s, pid, s1, p.pere);
    } else {
      DeplacerEffet(s, pid, p.(etat := MOURANT), ProcMourants);
      OrdreSans(s, Frappe(s, pid), pid);
    }
  }

  lemma FrappeSuite(s: Noyau, pid: int, s1: Noyau, pere: int)
    requires Inv(s) && KillValide(s, pid) && pid != s.elu && Coherent(s1) && Coherent(ReveilPere(s1, pere))
    requires s1.procs == s.procs[pid := s.procs[pid].(etat := ZOMBIE, chainage := Libre)] && Ordre(s, s1) && Ordre(s1, ReveilPere(s1, pere))
    requires Chaine(s1, ProcActivables) == Without(Chaine(s, ProcActivables), pid)
    requires var attend := pere in s1.procs && s1.procs[pere].etat == ATTEND_FILS;
      && ReveilPere(s1, pere).procs == (if attend then s1.procs[pere := Pret(s1.procs[pere])] else s1.procs)
      && forall x :: x in Chaine(ReveilPere(s1, pere), ProcActivables) <==> x in Chaine(s1, ProcActivables) || (attend && x == pere)
    ensures Ordre(s, ReveilPere(s1, pere))
  {
    hide Ordre, ReveilPere, Tri, Files, Sems, Trie, Famille, Table, Without;
    WithoutElems(Chaine(s, ProcActivables), pid);
    OrdreEnsuite(s, s1, ReveilPere(s1, pere));
  }

  lemma OrdreWaitpid(s: Noyau, pid: int)
    requires Inv(s) && s.elu != IDLE && (pid >= 0 ==> pid in Elu(s).fils)
    ensures !BoucleWaitpid(s, pid).Panique? && Ordre(s, BoucleWaitpid(s, pid).s)
  {
    hide Ordre, Recueilli, FreeMourantQueue, Ordonnanceur, Detacher, Inv, Without;
    SansAttente(s);
    PereConnu(s);
    var c := if pid < 0 then PremierZombie(s, Elu(s).fils)
             else if pid in s.procs && s.procs[pid].etat == ZOMBIE then pid else NULL;
    if c in s.procs && c != s.elu {
      OrdreRecueilli(s, c);
    } else {
      OrdrePatienter(s, pid);
    }
  }

  lemma OrdreRecueilli(s: Noyau, c: int)
    requires Inv(s) && c in Elu(s).fils && c in s.procs && s.procs[c].etat == ZOMBIE && c != s.elu
    ensures Ordre(s, FreeMourantQueue(Recueilli(s, c)))
  {
    hide Ordre, FreeMourantQueue, Recueilli, Inv, Coherent;
    SansAttente(s);
    SansDoublon(s);
    var s1 := Recueilli(s, c);
    RecueilliCoherent(s, c);
    RecueilliPrets(s, c);
    OrdreMeme(s, s1);
    EluEpargne(s1);
    OrdreMoisson(s1);
    ReapOrdre(s, s1);
  }

  lemma EluEpargne(s: Noyau)
    requires Coherent(s) && s.procs[s.elu].etat == ELU
    ensures s.elu in s.procs && !Condamne(s, s.elu)
  {
    EluSauf(s);
  }

  lemma RecueilliPrets(s: Noyau, c: int)
    requires Inv(s) && c in s.procs && s.procs[c].etat == ZOMBIE && c != s.elu
    ensures Chaine(Recueilli(s, c), ProcActivables) == Chaine(s, ProcActivables)
  {
    hide Deplacer, Without, Tri, Files, Sems, Famille;
    var rec := Elu(s).(fils := Without(Elu(s).fils, c), suite := Utilisateur);
    var s1 := Maj(s, s.elu, rec);
    MajChainages(s, s.elu, rec);
    assert forall r :: Chaine(s1, r) == Chaine(s, r);
    DeplacerEffet(s1, c, s.procs[c].(etat := MOURANT, pere := NULL), ProcMourants);
    HorsFile(s1, c, ProcActivables);
  }

  lemma OrdrePatienter(s: Noyau, pid: int)
    requires Inv(s) && s.elu != IDLE && (pid >= 0 ==> pid in Elu(s).fils)
    ensures Ordre(s, Ordonnanceur(Detacher(s, s.elu, Elu(s).(etat := ATTEND_FILS, suite := DansWaitpid(pid)))))
  {
    hide Ordre, Ordonnanceur, Detacher, Tri, Files, Sems;
    var rec := Elu(s).(etat := ATTEND_FILS, suite := DansWaitpid(pid));
    var s1 := Detacher(s, s.elu, rec);
    HorsFile(s, s.elu, ProcActivables);
    DetacherCoherent(s, s.elu, rec);
    DetacherEffet(s, s.elu, rec);
    DetacherElu(s, s.elu, rec);
    EluSauf(s1);
    OrdreMeme(s, s1);
    OrdreQuitte(s, s1);
  }

  lemma OrdreSuspensions(s: Noyau, ticks: int)
    requires Inv(s) && s.elu != IDLE
    ensures Ordre(s, WaitClock(s, ticks).s) && Ordre(s, ConsReadBloque(s).s) && Ordre(s, ConsReadLu(s).s)
  {
    hide Ordonnanceur, Deplacer, Ordre;
    OrdreSuspendu(s, Elu(s).(etat := ENDORMI, secReveille := ticks, suite := Utilisateur), ProcEndormis);
    OrdreSuspendu(s, Elu(s).(etat := ATTEND_ES, suite := DansConsRead), ProcBloqueEs);
    OrdreMeme(s, ConsReadLu(s).s);
  }

  lemma OrdreReveilFinir(s: Noyau, s0: Noyau, p: int, rec: Processus, commute: bool)
    requires Coherent(s0) && DefuntsSansPere(s0) && s0.procs[s0.elu].etat == ELU && Chaine(s0, ProcActivables) == Chaine(s, ProcActivables)
    requires p in s0.procs && p != s0.elu && EnAttente(s0.procs[p].etat)
    requires rec.prio == s0.procs[p].prio && rec.pere == s0.procs[p].pere && rec.fils == s0.procs[p].fils && AttenteFondee(rec)
    ensures Ordre(s, Finir(Reveil(s0, p, rec), commute))
  {
    hide Ordre, Finir, Reveil, Tri, Files, Sems, Famille;
    ReveilCoherent(s0, p, rec);
    OrdreReveil(s0, p, rec);
    OrdreDe(s, s0, Reveil(s0, p, rec));
    OrdreFinir(s, Reveil(s0, p, rec), commute);
  }

  lemma OrdrePsend(s: Noyau, fid: int, m: int)
    requires Inv(s) && s.elu != IDLE && fid in s.files
    ensures Ordre(s, Psend(s, fid, m).s)
  {
    hide Reveil, Finir, Ordonnanceur, Deplacer, Ordre, Tri, Trie, Sems;
    var f, q := s.files[fid], Chaine(s, AttenteFile(fid));
    if q != [] { TeteEnAttente(s, fid); }
    SansDoublon(s);
    var e := Elu(s).(fileValue := m, operationStatus := 1);
    if (f.queueMsg != [] || q == []) && |f.queueMsg| == f.maxMsg {
      OrdreSuspendu(s, Elu(s).(etat := ATTEND_FILE, fid := fid, fileValue := m, operationStatus := 1, suite := DansPsend), AttenteFile(fid));
    } else {
      var s0 := Maj(s, s.elu, e);
      MajEluInv(s, e);
      if f.queueMsg == [] && q != [] {
        OrdreReveilFinir(s, s0, q[0], s.procs[q[0]].(fid := -1, fileValue := m, operationStatus := 1), s.procs[q[0]].prio > Elu(s).prio);
      } else {
        OrdreMeme(s, Psend(s, fid, m).s);
      }
    }
  }

  lemma OrdrePreceive(s: Noyau, fid: int)
    requires Inv(s) && s.elu != IDLE && fid in s.files
    ensures Ordre(s, Preceive(s, fid).s)
  {
    hide Reveil, Finir, Ordonnanceur, Deplacer, Ordre, Tri, Trie, Sems;
    var f, q := s.files[fid], Chaine(s, AttenteFile(fid));
    SansDoublon(s);
    if f.queueMsg == [] {
      OrdreSuspendu(s, Elu(s).(etat := ATTEND_FILE, fid := fid, fileValue := -1, operationStatus := 1, suite := DansPreceive), AttenteFile(fid));
    } else {
      var e := Elu(s).(fileValue := -1, operationStatus := 1);
      var s0 := Maj(s, s.elu, e);
      MajEluInv(s, e);
      if q != [] {
        TeteEnAttente(s, fid);
        var p := s.procs[q[0]];
        var msgs := f.queueMsg[1..] + [p.fileValue];
        MajFileInv(s0, fid, msgs);
        OrdreReveilFinir(s, MajFile(s0, fid, msgs), q[0], p.(fid := -1, operationStatus := 1), p.prio > Elu(s).prio);
      } else {
        OrdreMeme(s, Preceive(s, fid).s);
      }
    }
  }

  lemma OrdreVidage(s: Noyau, fid: int)
    requires Inv(s) && fid in s.files
    ensures Ordre(s, Preset(s, fid).s) && Ordre(s, Pdelete(s, fid).s)
  {
    hide ReveillerListe, Finir, Tri, Table, Famille, Sems, Etats, Depasse, Ordre;
    var r := AttenteFile(fid);
    SansAttente(s);
    var q := Chaine(s, r);
    var s1 := ReveillerListe(s, q, 0);
    VideeElu(s, r, 0);
    OrdreListe(s, r, 0);
    MajFileInv(s1, fid, []);
    OrdrePareil(s, s1, MajFile(s1, fid, []));
    OrdreFinir(s, MajFile(s1, fid, []), Depasse(s, q, Elu(s).prio));
    RetireeCoherent(s1, fid);
    OrdrePareil(s, s1, Retiree(s1, fid));
    OrdreFinir(s, Retiree(s1, fid), Depasse(s, q, Elu(s).prio));
  }

  lemma OrdrePareil(s: Noyau, s1: Noyau, s': Noyau)
    requires Ordre(s, s1) && s'.procs == s1.procs && Chaine(s', ProcActivables) == Chaine(s1, ProcActivables)
    ensures Ordre(s, s')
  {
  }

  lemma OrdreSvider(s: Noyau, sid: int, count: int)
    requires Inv(s) && sid in s.sems
    ensures Ordre(s, Sdelete(s, sid).s) && (count >= 0 ==> Ordre(s, Sreset(s, sid, count).s))
  {
    hide ReveillerListe, Videe, Ordre, Coherent;
    Sujet(s, s.elu);
    OrdreListe(s, AttenteSem(sid), -3);
    OrdreListe(s, AttenteSem(sid), -4);
    var s1, s2 := ReveillerListe(s, Chaine(s, AttenteSem(sid)), -3), ReveillerListe(s, Chaine(s, AttenteSem(sid)), -4);
    assert Chaine(SemRetire(s1, sid), ProcActivables) == Chaine(s1, ProcActivables);
    OrdrePareil(s, s1, SemRetire(s1, sid));
    assert Chaine(MajSem(s2, sid, count), ProcActivables) == Chaine(s2, ProcActivables);
    OrdrePareil(s, s2, MajSem(s2, sid, count));
  }

  lemma OrdreSignal(s: Noyau, sid: int)
    requires Inv(s) && !Signal(s, sid).Panique?
    ensures Ordre(s, Signal(s, sid).s) && MemePrio(s, Signal(s, sid).s)
    ensures forall x :: x in Chaine(s, ProcActivables) ==> x in Chaine(Signal(s, sid).s, ProcActivables)
  {
    hide Reveil, Ordre, Tri, Files, Famille, Table;
    OrdreMeme(s, s);
    if sid in s.sems && s.sems[sid] <= SHORTINT_MAX - 1 {
      var s1, q := MajSem(s, sid, s.sems[sid] + 1), Chaine(s, AttenteSem(sid));
      MajSemCoherent(s, sid, s.sems[sid] + 1);
      OrdreMeme(s, s1);
      if s.sems[sid] + 1 <= 0 {
        TeteBloquee(s, AttenteSem(sid));
        var rec := s.procs[q[0]].(operationStatus := 1);
        ReveilCoherent(s1, q[0], rec);
        OrdreReveil(s1, q[0], rec);
        OrdreDe(s, s1, Reveil(s1, q[0], rec));
      }
    }
  }

  lemma {:induction false} OrdreSignaux(s: Noyau, sid: int, n: int)
    requires Inv(s) && !Signaux(s, sid, n).Panique?
    ensures Ordre(s, Signaux(s, sid, n).s) && MemePrio(s, Signaux(s, sid, n).s) && Inv(Signaux(s, sid, n).s)
    decreases n
  {
    hide Signal, Ordre, Inv, Chaine;
    SansDoublon(s);
    if n > 0 && Signal(s, sid).Rend? {
      var s1 := Signal(s, sid).s;
      SignalInv(s, sid);
      OrdreSignal(s, sid);
      OrdreSignaux(s1, sid, n - 1);
      SansDoublon(s1);
      SansDoublon(Signaux(s, sid, n).s);
      SignalCles(s, sid);
      OrdreEnsuite(s, s1, Signaux(s, sid, n).s);
    } else {
      OrdreMeme(s, s);
    }
  }

  lemma SignalCles(s: Noyau, sid: int)
    requires Inv(s) && !Signal(s, sid).Panique?
    ensures forall x :: x in s.procs ==> x in Signal(s, sid).s.procs
  {
    hide Rang, Insert, Without;
  }

  lemma OrdreWait(s: Noyau, sid: int)
    requires Inv(s) && s.elu != IDLE
    ensures !Wait(s, sid).Panique? && Ordre(s, Wait(s, sid).s)
  {
    hide Ordonnanceur, Deplacer, Ordre, Inv, Coherent, MajSem, Admis, Accord, AttenteFondee;
    SansDoublon(s);
    OrdreMeme(s, s);
    if sid in s.sems && s.sems[sid] > SHORTINT_MIN {
      var s1 := MajSem(s, sid, s.sems[sid] - 1);
      WaitEnAttente(s, sid);
      MemesChaines(s, sid);
      OrdreMeme(s, s1);
      if s.sems[sid] - 1 < 0 {
        OrdreSuspendu(s1, Elu(s).(etat := ATTEND_SEMAPHORE, suite := DansWait), AttenteSem(sid));
        OrdreDe(s, s1, Wait(s, sid).s);
      }
    }
  }

  lemma OrdreReveils(s: Noyau, ticks: int)
    requires Inv(s)
    ensures Ordre(s, VerifieReveille(s, ticks))
  {
    hide Ordre, Finir, Eveiller, Restants, Coherent;
    Sujet(s, s.elu);
    var q := Chaine(s, ProcEndormis);
    var m := Restants(s.procs, q, ticks);
    OrdreEveiller(s, q, m);
    EveillerEffet(s, m);
    EluEveille(s, m, Eveiller(s, q, m));
    OrdreFinir(s, Eveiller(s, q, m), Depasse(s, q[m..], Elu(s).prio));
  }

  lemma EluEveille(s: Noyau, m: nat, s': Noyau)
    requires Inv(s) && Eveilles(s, m, s')
    ensures s'.elu in s'.procs && s'.procs[s'.elu].etat == ELU
    ensures forall x :: x in Chaine(s, ProcActivables) ==> x in Chaine(s', ProcActivables)
  {
  }

  lemma OrdreClavier(s: Noyau)
    requires Inv(s)
    ensures Ordre(s, VerifieEs(s))
  {
    hide Ordre, Finir, Reveil, Tri, Files, Sems, Trie, Table;
    var q := Chaine(s, ProcBloqueEs);
    SansDoublon(s);
    if q == [] {
      OrdreMeme(s, s);
    } else {
      TeteBloqueEs(s);
      OrdreReveilFinir(s, s, q[0], s.procs[q[0]], Elu(s).prio > s.procs[q[0]].prio);
    }
  }

  lemma OrdreReprise(s: Noyau, pret: bool)
    requires Inv(s) && s.elu != IDLE
    ensures !Reprendre(s, pret).Panique? && Ordre(s, Reprendre(s, pret).s)
  {
    hide BoucleWaitpid, ConsReadBloque, ConsReadLu, Inv, Ordre, Maj;
    SansAttente(s);
    SansDoublon(s);
    match Elu(s).suite {
      case DansWaitpid(cible) => CibleDuFils(s); OrdreWaitpid(s, cible);
      case DansConsRead => FormeSuspensions(s, 0); OrdreSuspensions(s, 0);
      case _ => MajPrets(s); OrdreMeme(s, Reprendre(s, pret).s);
    }
  }

  lemma MajPrets(s: Noyau)
    requires s.elu in s.procs
    ensures Chaine(Maj(s, s.elu, Elu(s).(suite := Utilisateur)), ProcActivables) == Chaine(s, ProcActivables)
  {
  }

  lemma OrdreTranche(s: Noyau)
    requires Inv(s)
    ensures Ordre(s, Ordonnanceur(s))
  {
    hide Ordre;
    EluSauf(s);
    OrdreOrdonnanceur(s);
  }

  lemma OrdreTables(s: Noyau, a: Appel)
    requires Inv(s) && !Faire(s, a).Panique?
    requires a.SysPcount? || a.SysScount? || a.SysPcreate? || a.SysScreate? || a.SysTryWait?
    ensures Ordre(s, Faire(s, a).s)
  {
    hide Start, Chprio, Exit, Kill, Waitpid, Pdelete, Preset, Psend, Preceive, Reprendre, VerifieReveille, VerifieEs;
    hide Ordre, Inv, Sdelete, Sreset, Signal, Signaln, Wait, Ordonnanceur;
    Sujet(s, s.elu);
    SansDoublon(s);
    assert Chaine(Faire(s, a).s, ProcActivables) == Chaine(s, ProcActivables);
    OrdreMeme(s, Faire(s, a).s);
  }

  lemma OrdreFiles(s: Noyau, a: Appel)
    requires Inv(s) && Legal(s, a) && (a.SysPsend? || a.SysPreceive? || a.SysPdelete? || a.SysPreset?)
    ensures !Faire(s, a).Panique? && Ordre(s, Faire(s, a).s)
  {
    hide Psend, Preceive, Pdelete, Preset, Ordre, Inv;
    FaireInv(s, a);
    SansDoublon(s);
    OrdreMeme(s, s);
    var fid := a.fid;
    if fid !in s.files {
      FileAbsente(s, fid, if a.SysPsend? then a.message else 0);
    } else {
      match a {
        case SysPsend(_, m) => OrdrePsend(s, fid, m);
        case SysPreceive(_) => OrdrePreceive(s, fid);
        case _ => OrdreVidage(s, fid);
      }
    }
  }

  lemma OrdreSemaphores(s: Noyau, a: Appel)
    requires Inv(s) && Legal(s, a) && !Faire(s, a).Panique? && (a.SysSdelete? || a.SysSreset? || a.SysSignal? || a.SysSignaln? || a.SysWait?)
    ensures Ordre(s, Faire(s, a).s)
  {
    hide Signal, Signaux, Wait, ReveillerListe, Ordre, Inv;
    SansDoublon(s);
    OrdreMeme(s, s);
    var sid := a.sid;
    match a {
      case SysSdelete(_) => if sid in s.sems { OrdreSvider(s, sid, 0); }
      case SysSreset(_, count) => if sid in s.sems && count >= 0 { OrdreSvider(s, sid, count); }
      case SysSignal(_) => OrdreSignal(s, sid);
      case SysSignaln(_, n) => if sid in s.sems && s.sems[sid] <= SHORTINT_MAX - n { OrdreSignaux(s, sid, n); }
      case SysWait(_) => OrdreWait(s, sid);
      case _ =>
    }
  }

  lemma OrdreProcessus(s: Noyau, a: Appel)
    requires Inv(s) && Legal(s, a) && !Faire(s, a).Panique? && (a.SysExit? || a.SysWaitpid?)
    ensures Ordre(s, Faire(s, a).s)
  {
    hide Ordre, Inv, Quitter, Mourir, BoucleWaitpid, Waitpid, Exit;
    SansDoublon(s);
    OrdreMeme(s, s);
    if a.SysExit? {
      ExitDeplie(s, a.retval);
      OrdreMourir(s, Elu(s).(retval := a.retval), true);
    } else {
      WaitpidInv(s, a.pid);
      if if a.pid >= 0 then a.pid in Elu(s).fils else Elu(s).fils != [] { OrdreWaitpid(s, a.pid); }
    }
  }

  // ----- chprio -----------------------------------------------------------------------------------------

  /** The same for everybody but `p`. */
  ghost predicate OrdreAutres(s: Noyau, s': Noyau, p: int) {
    var q, q2 := Chaine(s, ProcActivables), Chaine(s', ProcActivables);
    forall i, j {:trigger Lt(i, j)} ::
      (0 <= i && Lt(i, j) && j < |q2| && q2[i] != p && q2[j] != p && q2[j] in q
       && CleDe(s'.procs, Prio, q2[i]) <= CleDe(s'.procs, Prio, q2[j])) ==>
      q2[i] in q && SlotOf(q, q2[i]) < SlotOf(q, q2[j])
  }

  lemma OrdreDonc(s: Noyau, s': Noyau, p: int)
    requires Ordre(s, s')
    ensures OrdreAutres(s, s', p)
  {
  }

  lemma AutresPuis(s: Noyau, s1: Noyau, s2: Noyau, p: int)
    requires OrdreAutres(s, s1, p) && Ordre(s1, s2)
    requires forall x :: x != p && x in Chaine(s, ProcActivables) && x in Chaine(s2, ProcActivables) ==> x in Chaine(s1, ProcActivables)
    requires forall x :: x in Chaine(s1, ProcActivables) && x in Chaine(s2, ProcActivables) ==> CleDe(s1.procs, Prio, x) == CleDe(s2.procs, Prio, x)
    ensures OrdreAutres(s, s2, p)
  {
    var q, q1, q2 := Chaine(s, ProcActivables), Chaine(s1, ProcActivables), Chaine(s2, ProcActivables);
    forall i, j | 0 <= i && Lt(i, j) && j < |q2| && q2[i] != p && q2[j] != p
      && q2[j] in q && CleDe(s2.procs, Prio, q2[i]) <= CleDe(s2.procs, Prio, q2[j])
      ensures q2[i] in q && SlotOf(q, q2[i]) < SlotOf(q, q2[j])
    {
      assert q2[i] in q2 && q2[j] in q2;
      assert Lt(SlotOf(q1, q2[i]), SlotOf(q1, q2[j]));
    }
  }

  lemma OrdreReplace(s: Noyau, p: int, rec: Processus)
    requires Chainages(s) && p in s.procs && Trie(s, ProcActivables)
    ensures OrdreAutres(s, Deplacer(s, p, rec, ProcActivables), p)
  {
    hide Deplacer, Ordre, OrdreAutres, Derriere;
    var q := Chaine(s, ProcActivables);
    var s1 := Deplacer(s, p, rec, ProcActivables);
    var t := s.(anneaux := s.anneaux[ProcActivables := Without(q, p)]);
    OrdreSans(s, t, p);
    OrdreDonc(s, t, p);
    DeplacerDerriere(s, p, rec, ProcActivables);
    DeplacerEffet(s, p, rec, ProcActivables);
    WithoutElems(q, p);
    DerriereOrdre(s, t, p, rec, s1);
    Ailleurs(s, t, s1, p);
    AutresPuis(s, t, s1, p);
  }

  lemma DerriereOrdre(s: Noyau, t: Noyau, p: int, rec: Processus, s1: Noyau)
    requires var q := Chaine(t, ProcActivables);
      NoDup(q) && p !in q && Derriere(s.procs, Prio, q, p, rec.prio, Chaine(s1, ProcActivables))
    requires s1.procs == s.procs[p := rec.(chainage := Dans(ProcActivables))]
    ensures Ordre(t, s1)
  {
    hide Ordre;
    var q := Chaine(t, ProcActivables);
    var k: nat :| k <= |q| && Chaine(s1, ProcActivables) == Insert(q, k, p)
      && (forall i :: 0 <= i < k ==> CleDe(s.procs, Prio, q[i]) >= rec.prio)
      && (forall i :: k <= i < |q| ==> CleDe(s.procs, Prio, q[i]) < rec.prio);
    forall i | k <= i < |q| ensures CleDe(s1.procs, Prio, q[i]) < CleDe(s1.procs, Prio, p) {
      assert q[i] in q;
    }
    OrdreInsere(t, s1, k, p);
  }

  lemma Ailleurs(s: Noyau, t: Noyau, s1: Noyau, p: int)
    requires NoDup(Chaine(s, ProcActivables)) && Chaine(t, ProcActivables) == Without(Chaine(s, ProcActivables), p) && t.procs == s.procs
    requires forall x :: x != p && x in s.procs ==> x in s1.procs && s1.procs[x].prio == s.procs[x].prio
    requires forall x :: x in s1.procs ==> x in s.procs || x == p
    ensures forall x :: x != p && x in Chaine(s, ProcActivables) && x in Chaine(s1, ProcActivables) ==> x in Chaine(t, ProcActivables)
    ensures forall x :: x in Chaine(t, ProcActivables) && x in Chaine(s1, ProcActivables) ==> CleDe(t.procs, Prio, x) == CleDe(s1.procs, Prio, x)
  {
    WithoutElems(Chaine(s, ProcActivables), p);
  }

  lemma AutresFinir(s: Noyau, s1: Noyau, commute: bool, p: int)
    requires Coherent(s1) && DefuntsSansPere(s1) && s1.procs[s1.elu].etat == ELU && OrdreAutres(s, s1, p)
    requires forall x :: x in Chaine(s, ProcActivables) ==> x in Chaine(s1, ProcActivables)
    ensures OrdreAutres(s, Finir(s1, commute), p)
  {
    hide Ordonnanceur, Ordre, OrdreAutres, Tri, Files, Sems, Famille;
    if commute {
      EluSauf(s1);
      OrdonnanceurInv(s1);
      OrdreOrdonnanceur(s1);
      PrioGardee(s1);
      MemesCles(s1, Ordonnanceur(s1));
      AutresPuis(s, s1, Ordonnanceur(s1), p);
    }
  }

  lemma MemesCles(s: Noyau, s': Noyau)
    requires Chainages(s) && Chainages(s') && MemePrio(s, s')
    ensures forall x :: x in Chaine(s, ProcActivables) && x in Chaine(s', ProcActivables) ==> CleDe(s.procs, Prio, x) == CleDe(s'.procs, Prio, x)
  {
  }

  /** chprio moves nobody but its target. */
  lemma OrdreChprio(s: Noyau, pid: int, newPrio: int, mot: int)
    requires Inv(s)
    ensures OrdreAutres(s, Chprio(s, pid, newPrio, mot).s, pid)
  {
    hide Deplacer, Finir, Ordre, OrdreAutres, Coherent;
    Sujet(s, pid);
    SansDoublon(s);
    OrdreMeme(s, s);
    OrdreDonc(s, s, pid);
    if ChprioValide(s, pid, newPrio) {
      var p := s.procs[pid];
      var rec := p.(prio := newPrio);
      if pid == s.elu {
        MajPrioCoherent(s, pid, newPrio);
        OrdreMeme(s, Maj(s, pid, rec));
        OrdreDonc(s, Maj(s, pid, rec), pid);
        AutresFinir(s, Maj(s, pid, rec), newPrio < mot, pid);
      } else if p.etat == ACTIVABLE {
        ReplacerCoherent(s, pid, newPrio, ProcActivables);
        PretsTries(s);
        OrdreReplace(s, pid, rec);
        AutresFinir(s, Deplacer(s, pid, rec, ProcActivables), Elu(s).prio < newPrio, pid);
      } else if p.etat == ATTEND_FILE {
        PasPret(s, pid);
        DeplacerEffet(s, pid, rec, AttenteFile(p.fid));
        OrdreMeme(s, Deplacer(s, pid, rec, AttenteFile(p.fid)));
        OrdreDonc(s, Deplacer(s, pid, rec, AttenteFile(p.fid)), pid);
      } else {
        OrdreMeme(s, Maj(s, pid, rec));
        OrdreDonc(s, Maj(s, pid, rec), pid);
      }
    }
  }

  lemma PretsTries(s: Noyau)
    requires Inv(s)
    ensures Trie(s, ProcActivables)
  {
  }

  lemma PasPret(s: Noyau, p: int)
    requires Inv(s) && p in s.procs && s.procs[p].etat == ATTEND_FILE
    ensures Without(Chaine(s, ProcActivables), p) == Chaine(s, ProcActivables)
  {
    HorsFile(s, p, ProcActivables);
  }

  // ----- Every step -------------------------------------------------------------------------------------

  /** Whatever the step, a process that is ready before and after it is not overtaken: those ahead
      of it now outrank it, or were ahead of it.  (The target of a chprio is moved on purpose.) */
  lemma FaireOrdre(s: Noyau, a: Appel)
    requires Inv(s) && Legal(s, a) && !Faire(s, a).Panique?
    ensures if a.SysChprio? then OrdreAutres(s, Faire(s, a).s, a.pid) else Ordre(s, Faire(s, a).s)
  {
    hide Start, Chprio, Exit, Kill, Waitpid, WaitClock, ConsReadBloque, ConsReadLu, Pcreate, Pdelete, Preset, Psend, Preceive;
    hide Screate, Sdelete, Sreset, Signal, Signaln, TryWait, Wait, Reprendre, VerifieReveille, Ordonnanceur, VerifieEs;
    hide Inv, Ordre, OrdreAutres;
    match a {
      case SysStart(prio, alloue) => OrdreStart(s, prio, alloue);
      case SysChprio(pid, newPrio, mot) => OrdreChprio(s, pid, newPrio, mot);
      case SysExit(_) => OrdreProcessus(s, a);
      case SysKill(pid) => OrdreKill(s, pid);
      case SysWaitpid(_) => OrdreProcessus(s, a);
      case SysWaitClock(ticks) => OrdreSuspensions(s, ticks);
      case SysConsRead(_) => OrdreSuspensions(s, 0);
      case SysPdelete(_) => OrdreFiles(s, a);
      case SysPreset(_) => OrdreFiles(s, a);
      case SysPsend(_, _) => OrdreFiles(s, a);
      case SysPreceive(_) => OrdreFiles(s, a);
      case SysSdelete(_) => OrdreSemaphores(s, a);
      case SysSreset(_, _) => OrdreSemaphores(s, a);
      case SysSignal(_) => OrdreSemaphores(s, a);
      case SysSignaln(_, _) => OrdreSemaphores(s, a);
      case SysWait(_) => OrdreSemaphores(s, a);
      case Reprise(pret) => OrdreReprise(s, pret);
      case Reveils(ticks) => OrdreReveils(s, ticks);
      case Tranche => OrdreTranche(s);
      case Clavier => OrdreClavier(s);
      case _ => OrdreTables(s, a);
    }
  }
}
