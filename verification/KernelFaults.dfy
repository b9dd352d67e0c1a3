/** The exceptions made in KernelSteps all happen: for each of them, a run from boot that ends in
    it, and what it leads to. */
module KernelFaults {
  import opened PriorityQueue
  import opened KernelState
  import opened KernelMoves
  import opened KernelReap
  import opened KernelSched
  import opened KernelWake
  import opened KernelFiles
  import opened KernelSem
  import opened KernelStart
  import opened KernelDeath
  import opened KernelPatience
  import opened KernelFrames
  import opened KernelFollow
  import opened KernelSteps
  import opened KernelRuns

  // ----- A semaphore waiter is killed -----------------------------------------------------------

  /** Killing a process that waits on a semaphore whose count tells the truth spoils the
      semaphore: signalling it as many times as it had waiters, which is a legal call, dereferences
      a null pointer, and if the victim was the only one, a single signal does. */
  lemma TuerPuisSignaler(s: Noyau, pid: int, sid: int)
    requires Inv(s) && Comptes(s) && Legal(s, SysKill(pid)) && pid in s.procs && s.procs[pid].etat == ATTEND_SEMAPHORE
    requires s.procs[pid].chainage == Dans(AttenteSem(sid))
    ensures !Kill(s, pid).Panique? && Inv(Kill(s, pid).s)
    ensures var s', n := Kill(s, pid).s, |Chaine(s, AttenteSem(sid))|;
      && Legal(s', SysSignaln(sid, n)) && Fatal(s', SysSignaln(sid, n))
      && Legal(s', SysSignal(sid)) && (n == 1 ==> Fatal(s', SysSignal(sid)))
  {
    hide Kill, Without, Inv, Comptes, Legal;
    KillPerdSem(s, pid, sid);
    KillInv(s, pid);
    SurCeSem(s, pid, sid);
    CompteDe(s, sid);
    SansLaVictime(Chaine(s, AttenteSem(sid)), pid);
    PeuDAttente(s, AttenteSem(sid));
    ResteLegal(s, pid, sid);
  }

  lemma SansLaVictime(q: seq<int>, x: int)
    requires x in q
    ensures |Without(q, x)| == |q| - 1
  {
  }

  /** Never more than fifty processes in a queue. */
  lemma PeuDAttente(s: Noyau, r: Anneau)
    requires Inv(s)
    ensures |Chaine(s, r)| <= MAX_PROCESS
  {
    forall x | x in Chaine(s, r) ensures 0 <= x < MAX_PROCESS {
      assert x in s.procs;
    }
    Casiers(Chaine(s, r), MAX_PROCESS);
  }

  lemma PremierBorne(q: seq<int>, m: nat)
    requires q != [] && forall x :: x in q ==> 0 <= x < m
    ensures 0 <= q[0] < m
  {
    var x := q[0];
    assert x in q;
  }

  lemma {:induction false} Casiers(q: seq<int>, m: nat)
    requires NoDup(q) && forall x :: x in q ==> 0 <= x < m
    ensures |q| <= m
    decreases m
  {
    if m == 0 {
      if q != [] { PremierBorne(q, m); }
    } else {
      WithoutElems(q, m - 1);
      Casiers(Without(q, m - 1), m - 1);
    }
  }

  lemma MoissonElu(s: Noyau)
    requires Coherent(s)
    ensures FreeMourantQueue(s).elu == s.elu
  {
    CoherentMoissonnable(s);
    var morts := FreeMourantQueueExact(s);
  }

  lemma FilsElu(s: Noyau, pid: int)
    requires Inv(s) && pid in s.procs && pid != s.elu && 0 < pid < MAX_PROCESS && s.procs[pid].etat == ATTEND_SEMAPHORE
    requires s.procs[pid].pere != NULL
    ensures Kill(s, pid).Rend? && Kill(s, pid).s.elu == s.elu
  {
    hide FreeMourantQueue, ReveilPere, Detacher, Tri, Files, Sems;
    var p := s.procs[pid];
    var s1 := Detacher(s, pid, p.(etat := ZOMBIE));
    ZombieCoherent(s, pid, p.(etat := ZOMBIE));
    DetacherElu(s, pid, p.(etat := ZOMBIE));
    ReveilPereCoherent(s1, p.pere);
    MoissonElu(ReveilPere(s1, p.pere));
  }

  lemma SeulElu(s: Noyau, pid: int)
    requires Inv(s) && pid in s.procs && pid != s.elu && 0 < pid < MAX_PROCESS && s.procs[pid].etat == ATTEND_SEMAPHORE
    requires s.procs[pid].pere == NULL
    ensures Kill(s, pid).Rend? && Kill(s, pid).s.elu == s.elu
  {
    hide FreeMourantQueue, Deplacer, Tri, Files, Sems;
    var rec := s.procs[pid].(etat := MOURANT);
    MourirCoherent(s, pid, rec);
    DeplacerElu(s, pid, rec, ProcMourants);
    MoissonElu(Deplacer(s, pid, rec, ProcMourants));
  }

  /** After the kill of a waiting process the caller goes on in user mode. */
  lemma ResteLegal(s: Noyau, pid: int, sid: int)
    requires Inv(s) && Legal(s, SysKill(pid)) && pid in s.procs && s.procs[pid].etat == ATTEND_SEMAPHORE
    requires pid != s.elu && 0 < pid < MAX_PROCESS && !Kill(s, pid).Panique?
    ensures Legal(Kill(s, pid).s, SysSignal(sid))
    ensures forall n :: EntierCourt(n) ==> Legal(Kill(s, pid).s, SysSignaln(sid, n))
  {
    hide Kill, Inv, Suivi;
    KillSuivi(s, pid);
    EluSuivi(s, Kill(s, pid).s, pid);
    if s.procs[pid].pere != NULL { FilsElu(s, pid); } else { SeulElu(s, pid); }
  }

  lemma EluSuivi(s: Noyau, s': Noyau, pid: int)
    requires Inv(s) && Suivi(s, s', Touches(s, pid)) && pid != s.elu
    ensures s.elu in s'.procs && s'.procs[s.elu].suite == Elu(s).suite
  {
  }

  // ----- The runs ----------------------------------------------------------------------------------

  function Ne(prio: int, etat: Etat, chainage: Chainage, pere: int, fils: seq<int>, suite: Suite): Processus {
    Processus(etat, prio, 0, chainage, pere, fils, 0, 0, 0, 0, suite)
  }

  const PRETE := Dans(ProcActivables)

  const OISIF := PREMIER.(etat := ACTIVABLE, chainage := PRETE)

  /** Idle has started process 1 at the given priority; it runs. */
  function Apres1(prio: int): Noyau {
    var s := Demarrage();
    s.(procs := map[0 := OISIF, 1 := Ne(prio, ELU, Libre, NULL, [], Utilisateur)],
       libres := s.libres[1..], elu := 1, anneaux := map[ProcActivables := [0]])
  }

  /** Process 1 has started process 2 at priority 1. */
  function Apres2(prio: int): Noyau {
    var s := Demarrage();
    s.(procs := map[0 := OISIF, 1 := Ne(prio, ELU, Libre, NULL, [2], Utilisateur), 2 := Ne(1, ACTIVABLE, PRETE, 1, [], Utilisateur)],
       libres := s.libres[1..][1..], elu := 1, anneaux := map[ProcActivables := [2, 0]])
  }

  /** Process 1 has exited: it is in the dying queue, and its child runs. */
  function Sorti(): Noyau {
    var s := Apres2(1);
    s.(procs := map[0 := OISIF, 1 := Ne(1, MOURANT, Dans(ProcMourants), NULL, [2], Utilisateur), 2 := Ne(1, ELU, Libre, 1, [], Utilisateur)],
       elu := 2, anneaux := map[ProcActivables := [0], ProcMourants := [1]])
  }

  /** Process 1 sleeps in waitpid, and its child runs. */
  function Endormi(): Noyau {
    var s := Apres2(1);
    s.(procs := map[0 := OISIF, 1 := Ne(1, ATTEND_FILS, Libre, NULL, [2], DansWaitpid(2)), 2 := Ne(1, ELU, Libre, 1, [], Utilisateur)],
       elu := 2, anneaux := map[ProcActivables := [0]])
  }

  const SEM := NBSEM - 1

  /** Process 1, at priority 2, has created a semaphore of count 0 ... */
  function AvecSem(): Noyau {
    var s := Apres2(2);
    s.(sems := map[SEM := 0], sidsLibres := s.sidsLibres[1..])
  }

  /** ... and waits on it; process 2, at priority 1, runs. */
  function SurSem(): Noyau {
    var s := AvecSem();
    s.(procs := map[0 := OISIF, 1 := Ne(2, ATTEND_SEMAPHORE, Dans(AttenteSem(SEM)), NULL, [2], DansWait), 2 := Ne(1, ELU, Libre, 1, [], Utilisateur)],
       elu := 2, sems := map[SEM := -1], anneaux := map[ProcActivables := [0], AttenteSem(SEM) := [1]])
  }

  /** A switch with nobody to reap, once the ready queue is known. */
  lemma Election(s: Noyau, s1: Noyau, n: int, reste: seq<int>, s': Noyau)
    requires Chaine(s, ProcMourants) == [] && Chaine(s, ProcActivables) != [] && s.elu in s.procs && s1 == Remettre(s)
    requires Chaine(s1, ProcActivables) == [n] + reste && n !in reste && n in s1.procs && s1.procs[n].chainage == PRETE
    requires s'.procs == s1.procs[n := s1.procs[n].(etat := ELU, chainage := Libre)]
    requires s'.anneaux == s1.anneaux[ProcActivables := reste]
    requires s' == s1.(procs := s'.procs, anneaux := s'.anneaux, elu := n)
    ensures Ordonnanceur(s) == s'
  {
    hide Remettre;
    WithoutHead([n] + reste);
    assert FreeMourantQueue(s) == s;
    assert Elire(s1).procs == s'.procs;
    assert Elire(s1).anneaux == s'.anneaux;
  }

  lemma RienARemettre(s: Noyau)
    requires s.elu in s.procs && s.procs[s.elu].etat != ELU && s.procs[s.elu].etat != ACTIVABLE && s.procs[s.elu].etat != MOURANT
    ensures Remettre(s) == s
  {
  }

  lemma PasStart1(prio: int)
    requires 0 < prio <= PRIO_MAX
    ensures Start(Demarrage(), prio, true) == Rend(Apres1(prio), 1, 0)
  {
    hide FreeMourantQueue, Elire, Ordonnanceur;
    var s := Demarrage();
    var s1 := QueueAdd(Inscrit(s, Nouveau(s, prio, ACTIVABLE)), ProcActivables, 1);
    assert Chaine(s1, ProcActivables) == [1];
    var s2 := Remettre(s1);
    assert s2 == QueueAdd(Maj(s1, 0, PREMIER.(etat := ACTIVABLE)), ProcActivables, 0);
    assert Chaine(s2, ProcActivables) == [1] + [0];
    Election(s1, s2, 1, [0], Apres1(prio));
  }

  lemma PasStart2(prio: int)
    requires 0 < prio <= PRIO_MAX
    ensures Start(Apres1(prio), 1, true) == Rend(Apres2(prio), 2, 0)
  {
    var s := Apres1(prio);
    assert [s.libres[0]] + Elu(s).fils == [2];
    var s1 := Inscrit(s, Nouveau(s, 1, ACTIVABLE));
    assert Chaine(s1, ProcActivables) == [0];
    var q := Insert([0], Rang(s1.procs, ProcActivables, [0], s1.procs[2]), 2);
    assert q == [2, 0];
    assert QueueAdd(s1, ProcActivables, 2).procs == Apres2(prio).procs;
    assert QueueAdd(s1, ProcActivables, 2).anneaux == Apres2(prio).anneaux;
    assert QueueAdd(s1, ProcActivables, 2) == Apres2(prio);
  }

  lemma PasExit()
    ensures Exit(Apres2(1), 0) == Suspend(Sorti())
  {
    hide Elire, Ordonnanceur;
    var s := Apres2(1);
    var s1 := Detacher(s, 1, s.procs[1].(retval := 0, etat := MOURANT));
    assert FreeMourantQueue(s1) == s1;
    var s2 := Remettre(s1);
    assert Chaine(s2, ProcMourants) == [1] && Chaine(s2, ProcActivables) == [2] + [0];
    Election(s1, s2, 2, [0], Sorti());
  }

  lemma PasWaitpid()
    ensures Waitpid(Apres2(1), 2) == Suspend(Endormi())
  {
    hide FreeMourantQueue, Remettre, Elire, Ordonnanceur;
    var s := Apres2(1);
    var s1 := Detacher(s, 1, s.procs[1].(etat := ATTEND_FILS, suite := DansWaitpid(2)));
    assert Chaine(s1, ProcActivables) == [2] + [0];
    RienARemettre(s1);
    Election(s1, s1, 2, [0], Endormi());
    assert Waitpid(s, 2) == BoucleWaitpid(s, 2);
  }

  lemma PasScreate()
    ensures Screate(Apres2(2), 0) == Rend(AvecSem(), SEM, 0)
  {
  }

  lemma PasWait()
    ensures Wait(AvecSem(), SEM) == Suspend(SurSem())
  {
    hide FreeMourantQueue, Remettre, Elire, Ordonnanceur;
    var s := AvecSem();
    var s1 := Deplacer(MajSem(s, SEM, -1), 1, s.procs[1].(etat := ATTEND_SEMAPHORE, suite := DansWait), AttenteSem(SEM));
    assert Chaine(s1, AttenteSem(SEM)) == [1] && Chaine(s1, ProcMourants) == [];
    assert Chaine(s1, ProcActivables) == [2] + [0];
    RienARemettre(s1);
    Election(s1, s1, 2, [0], SurSem());
  }

  lemma DeDemarrage()
    ensures Demarrage().elu == IDLE && Demarrage().procs == map[IDLE := PREMIER]
  {
  }

  /** One more step of a run. */
  lemma CoursePlus(ss: seq<Noyau>, actes: seq<Appel>, a: Appel, s': Noyau)
    requires Course(ss, actes) && Legal(ss[|actes|], a)
    requires !Faire(ss[|actes|], a).Panique? && Faire(ss[|actes|], a).s == s'
    ensures Course(ss + [s'], actes + [a])
  {
    hide Faire;
    var ts, bs := ss + [s'], actes + [a];
    forall i {:trigger bs[i]} | 0 <= i < |bs|
      ensures Legal(ts[i], bs[i]) && !Faire(ts[i], bs[i]).Panique? && Faire(ts[i], bs[i]).s == ts[i+1]
    {
      if i < |actes| { assert actes[i] == bs[i]; }
    }
  }

  /** The common beginning: Idle starts 1, which starts 2. */
  lemma Debut(prio: int) returns (ss: seq<Noyau>, actes: seq<Appel>)
    requires 0 < prio <= PRIO_MAX
    ensures ss == [Demarrage(), Apres1(prio), Apres2(prio)] && |actes| == 2 && Course(ss, actes)
    ensures actes == [SysStart(prio, true), SysStart(1, true)]
  {
    hide Start, Demarrage;
    DeDemarrage();
    PasStart1(prio);
    PasStart2(prio);
    ss, actes := [Demarrage()], [];
    CoursePlus(ss, actes, SysStart(prio, true), Apres1(prio));
    ss, actes := ss + [Apres1(prio)], actes + [SysStart(prio, true)];
    CoursePlus(ss, actes, SysStart(1, true), Apres2(prio));
    ss, actes := ss + [Apres2(prio)], actes + [SysStart(1, true)];
  }

  /** From boot: Idle starts a process, which starts a child and exits; the child's own exit
      then frees the child while it runs.  (The invariant holds all along: only the last step
      is at fault.) */
  lemma EnfantMoissonneEnMarche() returns (ss: seq<Noyau>, actes: seq<Appel>)
    ensures Course(ss, actes) && ss[0] == Demarrage() && |actes| == 3 && Inv(ss[3])
    ensures Legal(ss[3], SysExit(0)) && Fatal(ss[3], SysExit(0)) && Faire(ss[3], SysExit(0)).Panique?
  {
    hide Exit, Inv;
    ss, actes := Debut(1);
    PasExit();
    CoursePlus(ss, actes, SysExit(0), Sorti());
    ss, actes := ss + [Sorti()], actes + [SysExit(0)];
    DemarrageInv();
    CourseInv(ss, actes, 3);
    assert 1 in Chaine(Sorti(), ProcMourants) by { assert Chaine(Sorti(), ProcMourants)[0] == 1; }
    assert CondamneEn(Sorti(), 1, 0);
    FaireInv(Sorti(), SysExit(0));
  }

  /** From boot: a process starts a child and waits for it. */
  lemma PereEndormi() returns (ss: seq<Noyau>, actes: seq<Appel>)
    ensures Course(ss, actes) && ss[0] == Demarrage() && |actes| == 3 && ss[3] == Endormi()
    ensures Inv(ss[3]) && SansReveilPerdu(ss[3])
  {
    hide Waitpid, Inv, SansReveilPerdu;
    ss, actes := Debut(1);
    PasWaitpid();
    CoursePlus(ss, actes, SysWaitpid(2), Endormi());
    ss, actes := ss + [Endormi()], actes + [SysWaitpid(2)];
    DemarrageInv();
    CourseInv(ss, actes, 3);
    CourseReveils(ss, actes, 3);
  }

  /** The child may kill its father, who is in no queue: the assertion of queue_del fails. */
  lemma PereTueEnAttente() returns (ss: seq<Noyau>, actes: seq<Appel>)
    ensures Course(ss, actes) && ss[0] == Demarrage() && |actes| == 3
    ensures Legal(ss[3], SysKill(1)) && Fatal(ss[3], SysKill(1)) && Faire(ss[3], SysKill(1)).Panique?
  {
    hide Inv, SansReveilPerdu;
    ss, actes := PereEndormi();
    FaireInv(ss[3], SysKill(1));
  }

  /** Or it may kill itself: nothing goes wrong, but its father sleeps over a dead child. */
  lemma ReveilPerdu() returns (ss: seq<Noyau>, actes: seq<Appel>)
    ensures Course(ss, actes) && ss[0] == Demarrage() && |actes| == 4 && Inv(ss[4])
    ensures PartSansPrevenir(ss[3], actes[3]) && SansReveilPerdu(ss[3]) && !SansReveilPerdu(ss[4])
  {
    hide Inv, SansReveilPerdu, Faire;
    ss, actes := PereEndormi();
    var s, a := Endormi(), SysKill(2);
    if Condamne(s, 1) { PereCondamne(s); assert false; }
    FaireInv(s, a);
    ReveilGarde(s, a);
    CoursePlus(ss, actes, a, Faire(s, a).s);
    ss, actes := ss + [Faire(s, a).s], actes + [a];
  }

  lemma PereCondamne(s: Noyau)
    requires Inv(s) && Condamne(s, 1)
    ensures 1 in s.procs && (s.procs[1].etat == ZOMBIE || s.procs[1].chainage == Dans(ProcMourants))
  {
    CondamneEtat(s, 1);
  }

  /** From boot: a process of priority 2 waits on a semaphore, and its child of priority 1 runs. */
  lemma PereSurSem() returns (ss: seq<Noyau>, actes: seq<Appel>)
    ensures Course(ss, actes) && ss[0] == Demarrage() && |actes| == 4 && ss[4] == SurSem()
    ensures Inv(ss[4]) && Comptes(ss[4]) && Bornes(ss[4]) && Preeminent(ss[4])
  {
    hide Screate, Wait, Inv, Comptes, Bornes, Preeminent, Laisse, TueEnAttente;
    ss, actes := Debut(2);
    PasScreate();
    CoursePlus(ss, actes, SysScreate(0), AvecSem());
    ss, actes := ss + [AvecSem()], actes + [SysScreate(0)];
    PasWait();
    CoursePlus(ss, actes, SysWait(SEM), SurSem());
    ss, actes := ss + [SurSem()], actes + [SysWait(SEM)];
    RienLaisse(ss, actes);
  }

  /** A run of start, screate and wait only. */
  lemma RienLaisse(ss: seq<Noyau>, actes: seq<Appel>)
    requires Course(ss, actes) && ss[0] == Demarrage()
    requires forall i :: 0 <= i < |actes| ==> actes[i].SysStart? || actes[i].SysScreate? || actes[i].SysWait?
    ensures var s := ss[|actes|];
      Inv(s) && Comptes(s) && Bornes(s) && Preeminent(s)
  {
    hide Inv, Comptes, Bornes, Preeminent, Faire;
    DemarrageInv();
    CourseComptes(ss, actes, |actes|);
    CourseBornes(ss, actes, |actes|);
    forall i | 0 <= i < |actes| ensures Legal(ss[i], actes[i]) && !Laisse(ss[i], actes[i]) {
      Etape(ss, actes, i);
    }
    CoursePriorite(ss, actes, |actes|);
  }

  /** signal then lets the father outrank the running child. */
  lemma SignalSansCommuter() returns (ss: seq<Noyau>, actes: seq<Appel>)
    ensures Course(ss, actes) && ss[0] == Demarrage() && |actes| == 5 && Inv(ss[5])
    ensures Laisse(ss[4], actes[4]) && Preeminent(ss[4]) && !Preeminent(ss[5])
  {
    hide Inv, Comptes, Bornes, Preeminent, Faire;
    ss, actes := PereSurSem();
    var s, a := SurSem(), SysSignal(SEM);
    var q := Chaine(s, AttenteSem(SEM));
    assert q == [1] && Premiers(q, 1) == [1] && Premiers(q, 1)[0] == 1;
    assert Depasse(s, Premiers(q, 1), Elu(s).prio);
    FaireInv(s, a);
    PrioriteGardee(s, a);
    CoursePlus(ss, actes, a, Faire(s, a).s);
    ss, actes := ss + [Faire(s, a).s], actes + [a];
  }

  /** The child may kill its waiting father instead: the count then lies, and the next signal
      dereferences a null pointer. */
  lemma AttenteTuee() returns (ss: seq<Noyau>, actes: seq<Appel>)
    ensures Course(ss, actes) && ss[0] == Demarrage() && |actes| == 5 && Inv(ss[5])
    ensures TueEnAttente(ss[4], actes[4]) && Comptes(ss[4]) && !Comptes(ss[5])
    ensures Legal(ss[5], SysSignal(SEM)) && Fatal(ss[5], SysSignal(SEM)) && Faire(ss[5], SysSignal(SEM)).Panique?
  {
    hide Inv, Comptes, Bornes, Preeminent, Faire, Kill;
    ss, actes := PereSurSem();
    var s, a := SurSem(), SysKill(1);
    FaireInv(s, a);
    ComptesGardes(s, a);
    FaireKill(s, a);
    TuerPuisSignaler(s, 1, SEM);
    CoursePlus(ss, actes, a, Faire(s, a).s);
    ss, actes := ss + [Faire(s, a).s], actes + [a];
    FaireInv(ss[5], SysSignal(SEM));
  }
}
