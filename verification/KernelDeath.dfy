/** exit, kill and waitpid (kernel/processus.c:482-618). */
module KernelDeath {
  import opened PriorityQueue
  import opened KernelState
  import opened KernelMoves
  import opened KernelReap
  import opened KernelSched
  import opened KernelWake
  import opened KernelFiles

  /** Waking a father blocked in waitpid. */
  function ReveilPere(s: Noyau, pere: int): Noyau {
    if pere in s.procs && s.procs[pere].etat == ATTEND_FILS then Reveil(s, pere, s.procs[pere]) else s
  }

  /** The call of ordonnanceur by a dying process.  If it is itself reaped there, its record is
      used after having been freed. */
  function Quitter(s: Noyau): Issue {
    if s.elu !in FreeMourantQueue(s).procs then Panique else Suspend(Ordonnanceur(s))
  }

  function Exit(s: Noyau, retval: int): Issue
    requires s.elu in s.procs
  {
    var e := Elu(s).(retval := retval);
    if e.pere != NULL then Quitter(ReveilPere(Detacher(s, s.elu, e.(etat := ZOMBIE)), e.pere))
    else Quitter(Detacher(s, s.elu, e.(etat := MOURANT)))
  }

  /** A process that is in no queue (one waiting for a child) fails the assertion of queue_del. */
  function Kill(s: Noyau, pid: int): Issue
    requires s.elu in s.procs
  {
    if pid <= 0 || pid >= MAX_PROCESS || pid !in s.procs then Rend(s, -1, 0)
    else
      var p := s.procs[pid];
      if p.etat == ZOMBIE || p.etat == MOURANT then Rend(s, -1, 0)
      else if pid == s.elu then
        Quitter(Detacher(s, pid, p.(etat := if p.pere != NULL then ZOMBIE else MOURANT)))
      else if p.chainage == Libre then Panique
      else if p.pere != NULL then
        Rend(FreeMourantQueue(ReveilPere(Detacher(s, pid, p.(etat := ZOMBIE)), p.pere)), 0, 0)
      else Rend(FreeMourantQueue(Deplacer(s, pid, p.(etat := MOURANT), ProcMourants)), 0, 0)
  }

  /** The first zombie of a list of children, NULL if there is none. */
  function PremierZombie(s: Noyau, fils: seq<int>): (c: int)
    ensures c == NULL || (c in fils && c in s.procs && s.procs[c].etat == ZOMBIE)
    ensures c == NULL && NULL !in s.procs ==> forall x :: x in fils && x in s.procs ==> s.procs[x].etat != ZOMBIE
    decreases |fils|
  {
    if fils == [] then NULL
    else if fils[0] in s.procs && s.procs[fils[0]].etat == ZOMBIE then fils[0]
    else PremierZombie(s, fils[1..])
  }

  /** The dead child leaves its father's list and joins the dying queue. */
  function Recueilli(s: Noyau, c: int): Noyau
    requires s.elu in s.procs && c in s.procs && c != s.elu
  {
    var s1 := Maj(s, s.elu, Elu(s).(fils := Without(Elu(s).fils, c), suite := Utilisateur));
    Deplacer(s1, c, s.procs[c].(etat := MOURANT, pere := NULL), ProcMourants)
  }

  /** The waiting loops of waitpid, entered anew each time the father runs again. */
  function BoucleWaitpid(s: Noyau, pid: int): Issue
    requires s.elu in s.procs
  {
    var c := if pid < 0 then PremierZombie(s, Elu(s).fils)
             else if pid in s.procs && s.procs[pid].etat == ZOMBIE then pid else NULL;
    if c in s.procs && c != s.elu then
      Rend(FreeMourantQueue(Recueilli(s, c)), c, s.procs[c].retval)
    else
      Suspend(Ordonnanceur(Detacher(s, s.elu, Elu(s).(etat := ATTEND_FILS, suite := DansWaitpid(pid)))))
  }

  function Waitpid(s: Noyau, pid: int): Issue
    requires s.elu in s.procs
  {
    if pid >= MAX_PROCESS then Rend(s, -1, 0)
    else if pid >= 0 && (pid !in s.procs || s.procs[pid].pere != s.elu) then Rend(s, -1, 0)
    else if pid < 0 && Elu(s).fils == [] then Rend(s, -1, 0)
    else BoucleWaitpid(s, pid)
  }

  // ----- exit and kill ----------------------------------------------------------------------

  /** A process without a father is in nobody's list, and may start dying. */
  lemma MourantFamille(s: Noyau, s': Noyau, p: int, rec: Processus)
    requires Famille(s) && NULL !in s.procs && p in s.procs && s.procs[p].pere == NULL && p != IDLE
    requires rec.pere == NULL && rec.fils == s.procs[p].fils && AttenteFondee(rec) && rec.etat == MOURANT
    requires s'.procs == s.procs[p := rec]
    ensures Famille(s')
  {
    forall q, c | q in s'.procs && c in s'.procs[q].fils
      ensures c in s'.procs && s'.procs[c].pere == q && s'.procs[c].etat != MOURANT
    {
      assert c in s.procs[q].fils;
    }
  }

  /** A process starts dying: in the dying queue, or unlinked if it is the running one. */
  lemma MourirCoherent(s: Noyau, p: int, rec: Processus)
    requires Coherent(s) && DefuntsSansPere(s) && p in s.procs && p != IDLE && s.procs[p].pere == NULL
    requires rec.prio == s.procs[p].prio && rec.pere == NULL && rec.fils == s.procs[p].fils && AttenteFondee(rec) && rec.etat == MOURANT
    requires p != s.elu
    ensures Coherent(Deplacer(s, p, rec, ProcMourants)) && DefuntsSansPere(Deplacer(s, p, rec, ProcMourants))
  {
    hide Deplacer, Trie, Tri, Files, Sems;
    DeplacerElu(s, p, rec, ProcMourants);
    DeplacerEffet(s, p, rec, ProcMourants);
    DeplacerChainages(s, p, rec, ProcMourants);
    DeplacerTri(s, p, rec, ProcMourants);
    DeplacerFiles(s, p, rec, ProcMourants);
    MourantFamille(s, Deplacer(s, p, rec, ProcMourants), p, rec.(chainage := Dans(ProcMourants)));
  }

  lemma EluMourantCoherent(s: Noyau, rec: Processus)
    requires Coherent(s) && DefuntsSansPere(s) && s.elu != IDLE && s.procs[s.elu].pere == NULL
    requires rec.prio == s.procs[s.elu].prio && rec.pere == NULL && rec.fils == s.procs[s.elu].fils && AttenteFondee(rec) && rec.etat == MOURANT
    ensures Coherent(Detacher(s, s.elu, rec)) && DefuntsSansPere(Detacher(s, s.elu, rec))
  {
    DetacherEffet(s, s.elu, rec);
    DetacherChainages(s, s.elu, rec);
    DetacherTri(s, s.elu, rec);
    DetacherFiles(s, s.elu, rec);
    MourantFamille(s, Detacher(s, s.elu, rec), s.elu, rec.(chainage := Libre));
  }

  /** A process becomes a zombie. */
  lemma ZombieCoherent(s: Noyau, p: int, rec: Processus)
    requires Coherent(s) && p in s.procs && p != IDLE && s.procs[p].etat != MOURANT
    requires rec.prio == s.procs[p].prio && rec.pere == s.procs[p].pere && rec.fils == s.procs[p].fils && AttenteFondee(rec) && rec.etat == ZOMBIE
    ensures Coherent(Detacher(s, p, rec)) && Detacher(s, p, rec).elu == s.elu
    ensures DefuntsSansPere(s) ==> DefuntsSansPere(Detacher(s, p, rec))
    ensures Detacher(s, p, rec).procs == s.procs[p := rec.(chainage := Libre)]
  {
    hide Tri, Files, Sems, Trie;
    DetacherCoherent(s, p, rec);
    DetacherEffet(s, p, rec);
  }

  lemma ReveilPereCoherent(s: Noyau, pere: int)
    requires Coherent(s) && DefuntsSansPere(s) && (pere in s.procs && pere == s.elu ==> s.procs[pere].etat != ATTEND_FILS)
    ensures Coherent(ReveilPere(s, pere)) && DefuntsSansPere(ReveilPere(s, pere)) && ReveilPere(s, pere).elu == s.elu
    ensures ReveilPere(s, pere).procs ==
      if pere in s.procs && s.procs[pere].etat == ATTEND_FILS
      then s.procs[pere := s.procs[pere].(etat := ACTIVABLE, chainage := Dans(ProcActivables))] else s.procs
    ensures forall r :: r != ProcActivables ==> Chaine(ReveilPere(s, pere), r) == Chaine(s, r)
  {
    hide QueueAdd, Tri, Files, Sems;
    if pere in s.procs && s.procs[pere].etat == ATTEND_FILS {
      ReveilCoherent(s, pere, s.procs[pere]);
      forall r | r != ProcActivables ensures Chaine(ReveilPere(s, pere), r) == Chaine(s, r) {
        HorsFile(s, pere, r);
      }
    }
  }

  /** The kernel just before the last ordonnanceur of a dying process.  exit wakes a waiting
      father, a process that kills itself does not. */
  function Mourir(s: Noyau, e: Processus, reveille: bool): Noyau
    requires s.elu in s.procs
  {
    var s1 := Detacher(s, s.elu, e.(etat := if e.pere != NULL then ZOMBIE else MOURANT));
    if reveille && e.pere != NULL then ReveilPere(s1, e.pere) else s1
  }

  /** What the death of the running process leaves alone. */
  ghost predicate Deces(s: Noyau, e: Processus, s': Noyau) {
    && s'.elu == s.elu && s'.procs.Keys == s.procs.Keys && s.elu in s'.procs
    && Chaine(s', ProcMourants) == Chaine(s, ProcMourants)
    && s'.procs[s.elu].etat == (if e.pere != NULL then ZOMBIE else MOURANT)
    && s'.procs[s.elu].pere == e.pere && s'.procs[s.elu].chainage == Libre
    && forall x :: x in s.procs && x != s.elu ==>
         x in s'.procs && s'.procs[x].pere == s.procs[x].pere && (s'.procs[x].etat == ZOMBIE <==> s.procs[x].etat == ZOMBIE)
  }

  lemma MourirZombie(s: Noyau, e: Processus, reveille: bool)
    requires Inv(s) && s.elu != IDLE && e.prio == Elu(s).prio && e.pere == Elu(s).pere && e.fils == Elu(s).fils && AttenteFondee(e)
    requires e.pere != NULL
    ensures Coherent(Mourir(s, e, reveille)) && DefuntsSansPere(Mourir(s, e, reveille)) && Deces(s, e, Mourir(s, e, reveille))
  {
    hide Deplacer, Detacher, ReveilPere, Deces;
    HorsFile(s, s.elu, ProcMourants);
    var rec := e.(etat := ZOMBIE);
    ZombieCoherent(s, s.elu, rec);
    DetacherEffet(s, s.elu, rec);
    if reveille { ReveilPereCoherent(Detacher(s, s.elu, rec), e.pere); }
    DecesDe(s, e, Mourir(s, e, reveille));
  }

  lemma DecesDe(s: Noyau, e: Processus, s': Noyau)
    requires s.elu in s.procs && e.pere != NULL && s'.elu == s.elu && Chaine(s', ProcMourants) == Chaine(s, ProcMourants)
    requires var procs := s.procs[s.elu := e.(etat := ZOMBIE, chainage := Libre)];
      s'.procs == procs
      || (e.pere in procs && procs[e.pere].etat == ATTEND_FILS
          && s'.procs == procs[e.pere := procs[e.pere].(etat := ACTIVABLE, chainage := Dans(ProcActivables))])
    ensures Deces(s, e, s')
  {
  }

  lemma MourirInv(s: Noyau, e: Processus, reveille: bool)
    requires Inv(s) && s.elu != IDLE && e.prio == Elu(s).prio && e.pere == Elu(s).pere && e.fils == Elu(s).fils && AttenteFondee(e)
    ensures Coherent(Mourir(s, e, reveille)) && DefuntsSansPere(Mourir(s, e, reveille)) && Deces(s, e, Mourir(s, e, reveille))
  {
    hide Deplacer, Detacher, ReveilPere;
    if e.pere != NULL {
      MourirZombie(s, e, reveille);
    } else {
      HorsFile(s, s.elu, ProcMourants);
      EluMourantCoherent(s, e.(etat := MOURANT));
      DetacherEffet(s, s.elu, e.(etat := MOURANT));
      DetacherElu(s, s.elu, e.(etat := MOURANT));
    }
  }

  /** The death of a living process `p` dooms nobody but through `p` itself. */
  lemma {:induction false} CondamneSansLui(s: Noyau, s1: Noyau, p: int, x: int, n: nat)
    requires Inv(s) && s1.procs.Keys == s.procs.Keys && forall y :: y in Chaine(s1, ProcMourants) <==> y in Chaine(s, ProcMourants)
    requires p in s.procs && s.procs[p].etat != ZOMBIE
    requires forall y :: y in s.procs && y != p ==>
      s1.procs[y].pere == s.procs[y].pere && (s1.procs[y].etat == ZOMBIE <==> s.procs[y].etat == ZOMBIE)
    requires CondamneEn(s, x, n)
    ensures CondamneEn(s1, x, n)
    decreases n
  {
    if x !in Chaine(s, ProcMourants) {
      CondamneSansLui(s, s1, p, s.procs[x].pere, n - 1);
    }
  }

  lemma {:induction false} CondamneParLui(s: Noyau, s1: Noyau, p: int, x: int, n: nat)
    requires Inv(s) && s1.procs.Keys == s.procs.Keys && forall y :: y in Chaine(s1, ProcMourants) <==> y in Chaine(s, ProcMourants)
    requires p in s.procs && forall y :: y in s.procs && y != p ==>
      s1.procs[y].pere == s.procs[y].pere && (s1.procs[y].etat == ZOMBIE <==> s.procs[y].etat == ZOMBIE)
    requires s1.procs[p].pere == s.procs[p].pere
    requires CondamneEn(s1, x, n)
    ensures Condamne(s, x) || Condamne(s, s.procs[p].pere)
    decreases n
  {
    if x in Chaine(s, ProcMourants) {
      assert CondamneEn(s, x, 0);
    } else {
      CondamneParLui(s, s1, p, s1.procs[x].pere, n - 1);
      if x != p && !Condamne(s, s.procs[p].pere) {
        var m: nat :| CondamneEn(s, s.procs[x].pere, m);
        assert CondamneEn(s, x, m + 1);
      }
    }
  }

  /** A process leaving with a father behind it is reaped on the spot exactly when that father
      is doomed himself: in the dying queue, or a zombie below one that is. */
  lemma MourirCondamne(s: Noyau, e: Processus, reveille: bool)
    requires Inv(s) && s.elu != IDLE && e.prio == Elu(s).prio && e.pere == Elu(s).pere && e.fils == Elu(s).fils && AttenteFondee(e)
    ensures Condamne(Mourir(s, e, reveille), s.elu) <==> e.pere != NULL && Condamne(s, e.pere)
  {
    hide Mourir;
    var s1 := Mourir(s, e, reveille);
    MourirInv(s, e, reveille);
    assert s.elu !in Chaine(s1, ProcMourants);
    if e.pere != NULL && Condamne(s, e.pere) {
      var n: nat :| CondamneEn(s, e.pere, n);
      CondamneSansLui(s, s1, s.elu, e.pere, n);
      assert CondamneEn(s1, s.elu, n + 1);
    }
    if Condamne(s1, s.elu) {
      var n: nat :| CondamneEn(s1, s.elu, n);
      CondamneParLui(s, s1, s.elu, s.elu, n);
      if Condamne(s, s.elu) { EluSauf(s); assert false; }
    }
  }

  lemma QuitterInv(s: Noyau)
    requires Coherent(s) && DefuntsSansPere(s)
    ensures Quitter(s).Panique? <==> Condamne(s, s.elu)
    ensures !Quitter(s).Panique? ==> Quitter(s).Suspend? && Inv(Quitter(s).s) && Preeminent(Quitter(s).s)
  {
    CoherentMoissonnable(s);
    var morts := FreeMourantQueueExact(s);
    if !Condamne(s, s.elu) {
      OrdonnanceurInv(s);
    }
  }

  /** exit goes wrong exactly when the caller's father is doomed; otherwise it never returns,
      keeps the invariant and leaves the best ready process running. */
  lemma ExitInv(s: Noyau, retval: int)
    requires Inv(s) && s.elu != IDLE
    ensures Exit(s, retval).Panique? <==> Elu(s).pere != NULL && Condamne(s, Elu(s).pere)
    ensures !Exit(s, retval).Panique? ==>
      Exit(s, retval).Suspend? && Inv(Exit(s, retval).s) && Preeminent(Exit(s, retval).s)
  {
    hide Detacher, Quitter, ReveilPere;
    var e := Elu(s).(retval := retval);
    assert Exit(s, retval) == Quitter(Mourir(s, e, true));
    MourirInv(s, e, true);
    MourirCondamne(s, e, true);
    QuitterInv(Mourir(s, e, true));
  }

  /** Reaping by a process that goes on running. */
  lemma MoissonInv(s: Noyau)
    requires Coherent(s) && DefuntsSansPere(s) && s.procs[s.elu].etat == ELU
    ensures Inv(FreeMourantQueue(s)) && Moissonne(s, FreeMourantQueue(s))
  {
    EluSauf(s);
    MoissonCoherent(s);
  }

  /** kill goes wrong in two cases only: the victim waits for a child, so that it is in no
      queue; or it is the caller, and its father is doomed. */
  lemma KillPanique(s: Noyau, pid: int)
    requires Inv(s)
    ensures Kill(s, pid).Panique? <==>
      pid > IDLE && pid in s.procs &&
      (if pid == s.elu then Elu(s).pere != NULL && Condamne(s, Elu(s).pere) else s.procs[pid].etat == ATTEND_FILS)
  {
    hide Detacher, Deplacer, Quitter, ReveilPere;
    if pid > IDLE && pid in s.procs && pid == s.elu {
      assert Kill(s, pid) == Quitter(Mourir(s, Elu(s), false));
      MourirInv(s, Elu(s), false);
      MourirCondamne(s, Elu(s), false);
      QuitterInv(Mourir(s, Elu(s), false));
    }
  }

  lemma KillInv(s: Noyau, pid: int)
    requires Inv(s) && !Kill(s, pid).Panique?
    ensures Inv(Kill(s, pid).s)
  {
    hide Detacher, Deplacer, Quitter, ReveilPere, FreeMourantQueue, Tri, Files, Sems;
    if pid > IDLE && pid in s.procs && s.procs[pid].etat != ZOMBIE && s.procs[pid].etat != MOURANT {
      var p := s.procs[pid];
      if pid == s.elu {
        assert Kill(s, pid) == Quitter(Mourir(s, Elu(s), false));
        MourirInv(s, Elu(s), false);
        QuitterInv(Mourir(s, Elu(s), false));
      } else if p.pere != NULL {
        var s1 := Detacher(s, pid, p.(etat := ZOMBIE));
        ZombieCoherent(s, pid, p.(etat := ZOMBIE));
        ReveilPereCoherent(s1, p.pere);
        MoissonInv(ReveilPere(s1, p.pere));
      } else {
        var rec := p.(etat := MOURANT);
        MourirCoherent(s, pid, rec);
        assert Deplacer(s, pid, rec, ProcMourants).procs == s.procs[pid := rec.(chainage := Dans(ProcMourants))]
          && Deplacer(s, pid, rec, ProcMourants).elu == s.elu by {
          DeplacerEffet(s, pid, rec, ProcMourants);
          DeplacerElu(s, pid, rec, ProcMourants);
        }
        MoissonInv(Deplacer(s, pid, rec, ProcMourants));
      }
    }
  }

  lemma DetacherElu(s: Noyau, p: int, rec: Processus)
    requires p in s.procs
    ensures Detacher(s, p, rec).elu == s.elu
  {
  }

  lemma DeplacerElu(s: Noyau, p: int, rec: Processus, r: Anneau)
    requires p in s.procs
    ensures Deplacer(s, p, rec, r).elu == s.elu && Deplacer(s, p, rec, r).libres == s.libres
  {
  }

  // ----- waitpid ----------------------------------------------------------------------------

  /** The family once a dead child has been taken out of it. */
  lemma RecueilliFamille(s: Noyau, c: int, s': Noyau)
    requires Famille(s) && NULL !in s.procs && s.elu in s.procs && c in Elu(s).fils && c != IDLE && c != s.elu
    requires var rec := Elu(s).(fils := Without(Elu(s).fils, c), suite := Utilisateur);
      s'.procs == s.procs[s.elu := rec][c := s.procs[c].(etat := MOURANT, pere := NULL, chainage := Dans(ProcMourants))]
    requires Elu(s).etat != MOURANT
    ensures Famille(s')
  {
    var fils := Elu(s).fils;
    WithoutElems(fils, c);
    forall q, x | q in s'.procs && x in s'.procs[q].fils
      ensures x in s'.procs && s'.procs[x].pere == q && s'.procs[x].etat != MOURANT
    {
      assert x in s.procs[q].fils;
    }
  }

  lemma RecueilliFiles(s: Noyau, c: int)
    requires Chainages(s) && Tri(s) && Files(s) && Sems(s) && s.elu in s.procs && s.procs[s.elu].chainage == Libre
    requires c in s.procs && c != s.elu
    ensures var s' := Recueilli(s, c); Chainages(s') && Tri(s') && Files(s') && Sems(s') && c in Chaine(s', ProcMourants)
    ensures var rec := Elu(s).(fils := Without(Elu(s).fils, c), suite := Utilisateur);
      Recueilli(s, c).procs == s.procs[s.elu := rec][c := s.procs[c].(etat := MOURANT, pere := NULL, chainage := Dans(ProcMourants))]
  {
    hide Deplacer, Without;
    var rec := Elu(s).(fils := Without(Elu(s).fils, c), suite := Utilisateur);
    var s1 := Maj(s, s.elu, rec);
    var mort := s.procs[c].(etat := MOURANT, pere := NULL);
    MajChainages(s, s.elu, rec);
    assert forall r :: Chaine(s1, r) == Chaine(s, r);
    MemesFiles(s, s1);
    DeplacerEffet(s1, c, mort, ProcMourants);
    DeplacerChainages(s1, c, mort, ProcMourants);
    DeplacerTri(s1, c, mort, ProcMourants);
    DeplacerFiles(s1, c, mort, ProcMourants);
  }

  lemma RecueilliReste(s: Noyau, c: int)
    requires s.elu in s.procs && c in s.procs && c != s.elu
    ensures Recueilli(s, c).elu == s.elu && Recueilli(s, c).libres == s.libres
  {
  }

  lemma RecueilliCoherent(s: Noyau, c: int)
    requires Inv(s) && c in Elu(s).fils && c in s.procs && s.procs[c].etat == ZOMBIE && c != s.elu
    ensures Coherent(Recueilli(s, c)) && DefuntsSansPere(Recueilli(s, c)) && Recueilli(s, c).elu == s.elu
    ensures Recueilli(s, c).procs[s.elu].etat == ELU && c in Chaine(Recueilli(s, c), ProcMourants)
    ensures Recueilli(s, c).procs[s.elu].fils == Without(Elu(s).fils, c)
  {
    hide Recueilli, Without;
    RecueilliFiles(s, c);
    RecueilliReste(s, c);
    RecueilliFamille(s, c, Recueilli(s, c));
    RecueilliTable(s, c, Recueilli(s, c));
  }

  /** Rewriting the family fields of the running process changes no queue. */
  lemma MemesFiles(s: Noyau, s1: Noyau)
    requires Chainages(s) && Tri(s) && Files(s) && Sems(s) && s.elu in s.procs && s.procs[s.elu].chainage == Libre
    requires s1.procs.Keys == s.procs.Keys && forall r :: Chaine(s1, r) == Chaine(s, r)
    requires forall p :: p in s.procs && p != s.elu ==> s1.procs[p] == s.procs[p]
    requires s1.files == s.files && s1.fidsLibres == s.fidsLibres && s1.sems == s.sems && s1.sidsLibres == s.sidsLibres
    ensures Tri(s1) && Files(s1) && Sems(s1)
  {
    forall r | Trie(s, r) ensures Trie(s1, r) {
      ClesStables(s.procs, s1.procs, ChampDe(r), Chaine(s, r));
    }
    forall f ensures AttenteSaine(s1, f) {
      assert AttenteSaine(s, f);
    }
  }

  lemma RecueilliTable(s: Noyau, c: int, s': Noyau)
    requires Inv(s) && c in s.procs && s.procs[c].etat == ZOMBIE && c != s.elu
    requires var rec := Elu(s).(fils := Without(Elu(s).fils, c), suite := Utilisateur);
      s'.procs == s.procs[s.elu := rec][c := s.procs[c].(etat := MOURANT, pere := NULL, chainage := Dans(ProcMourants))]
    requires s'.elu == s.elu && s'.libres == s.libres
    ensures Table(s') && Etats(s') && DefuntsSansPere(s')
  {
  }

  /** The dead child is gone from the table when waitpid returns, and with it its exit value. */
  lemma RecueilliInv(s: Noyau, c: int)
    requires Inv(s) && c in Elu(s).fils && c in s.procs && s.procs[c].etat == ZOMBIE && c != s.elu
    ensures var s' := FreeMourantQueue(Recueilli(s, c));
      Inv(s') && s'.elu == s.elu && c !in s'.procs && Elu(s').fils == Without(Elu(s).fils, c)
  {
    hide Recueilli, FreeMourantQueue;
    RecueilliCoherent(s, c);
    var s1 := Recueilli(s, c);
    MoissonInv(s1);
    assert CondamneEn(s1, c, 0);
    EluSauf(s1);
  }

  /** The father suspended in waitpid. */
  lemma PatienterInv(s: Noyau, pid: int)
    requires Inv(s) && s.elu != IDLE && (pid >= 0 ==> pid in Elu(s).fils)
    ensures var s' := Ordonnanceur(Detacher(s, s.elu, Elu(s).(etat := ATTEND_FILS, suite := DansWaitpid(pid))));
      Inv(s') && Preeminent(s')
  {
    hide Ordonnanceur;
    var rec := Elu(s).(etat := ATTEND_FILS, suite := DansWaitpid(pid));
    DetacherCoherent(s, s.elu, rec);
    DetacherEffet(s, s.elu, rec);
    DetacherElu(s, s.elu, rec);
    EluSauf(Detacher(s, s.elu, rec));
    OrdonnanceurInv(Detacher(s, s.elu, rec));
  }

  /** The waiting loop returns exactly when a child it waits for is dead, with that child's pid
      and exit value, and the child is gone; otherwise the father is suspended. */
  lemma BoucleWaitpidInv(s: Noyau, pid: int)
    requires Inv(s) && s.elu != IDLE && (pid >= 0 ==> pid in Elu(s).fils)
    ensures var i := BoucleWaitpid(s, pid);
      && !i.Panique? && Inv(i.s)
      && (i.Rend? <==> exists c :: c in Elu(s).fils && c in s.procs && s.procs[c].etat == ZOMBIE && (pid < 0 || c == pid))
      && (i.Rend? ==>
            && i.code in Elu(s).fils && i.code in s.procs && s.procs[i.code].etat == ZOMBIE
            && (pid < 0 || i.code == pid) && i.valeur == s.procs[i.code].retval
            && i.s.elu == s.elu && i.code !in i.s.procs && Elu(i.s).fils == Without(Elu(s).fils, i.code))
      && (i.Suspend? ==> Preeminent(i.s))
  {
    hide Recueilli, FreeMourantQueue, Ordonnanceur, Detacher;
    var c := if pid < 0 then PremierZombie(s, Elu(s).fils)
             else if pid in s.procs && s.procs[pid].etat == ZOMBIE then pid else NULL;
    if c in s.procs && c != s.elu {
      RecueilliInv(s, c);
    } else {
      PatienterInv(s, pid);
    }
  }

  /** waitpid refuses a pid that is not a child of the caller, and the wait for any child by a
      caller that has none; otherwise it enters the loop. */
  lemma WaitpidInv(s: Noyau, pid: int)
    requires Inv(s) && s.elu != IDLE
    ensures !Waitpid(s, pid).Panique? && Inv(Waitpid(s, pid).s)
    ensures Waitpid(s, pid) ==
      if (if pid >= 0 then pid in Elu(s).fils else Elu(s).fils != []) then BoucleWaitpid(s, pid) else Rend(s, -1, 0)
  {
    hide BoucleWaitpid;
    if pid in s.procs && s.procs[pid].pere == s.elu && pid >= 0 {
      assert s.procs[pid].etat != MOURANT;
      assert pid in Elu(s).fils;
    }
    if if pid >= 0 then pid in Elu(s).fils else Elu(s).fils != [] {
      BoucleWaitpidInv(s, pid);
    }
  }
}
