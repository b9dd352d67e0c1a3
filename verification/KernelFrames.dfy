/** What the calls of one file leave alone in the state of another: the semaphores and their
    waiting lists, and the message queues. */
module KernelFrames {
  import opened PriorityQueue
  import opened KernelState
  import opened KernelMoves
  import opened KernelReap
  import opened KernelSched
  import opened KernelWake
  import opened KernelFiles
  import opened KernelSem
  import opened KernelStart
  import opened KernelDeath
  import opened KernelClock

  /** Every semaphore has the same count and the same waiting list. */
  ghost predicate SemsIntacts(s: Noyau, s': Noyau) {
    s'.sems == s.sems && forall k :: Chaine(s', AttenteSem(k)) == Chaine(s, AttenteSem(k))
  }

  lemma ComptesIntacts(s: Noyau, s': Noyau)
    requires Comptes(s) && SemsIntacts(s, s')
    ensures Comptes(s')
  {
    forall k ensures Compte(s', k) { assert Compte(s, k); }
  }

  lemma BornesIntactes(s: Noyau, s': Noyau)
    requires Bornes(s) && SemsIntacts(s, s')
    ensures Bornes(s')
  {
    forall k ensures Borne(s', k) { assert Borne(s, k); }
  }

  lemma DeplacerReste(s: Noyau, p: int, rec: Processus, r: Anneau)
    requires p in s.procs
    ensures Deplacer(s, p, rec, r).sems == s.sems && Deplacer(s, p, rec, r).files == s.files && Deplacer(s, p, rec, r).elu == s.elu
  {
  }

  lemma DetacherReste(s: Noyau, p: int, rec: Processus)
    requires p in s.procs
    ensures Detacher(s, p, rec).sems == s.sems && Detacher(s, p, rec).files == s.files && Detacher(s, p, rec).elu == s.elu
  {
  }

  predicate PasSurSem(p: Processus) {
    p.chainage.Dans? ==> !p.chainage.anneau.AttenteSem?
  }

  lemma DeplacerIntact(s: Noyau, p: int, rec: Processus, r: Anneau)
    requires Chainages(s) && p in s.procs && PasSurSem(s.procs[p]) && !r.AttenteSem?
    ensures SemsIntacts(s, Deplacer(s, p, rec, r)) && Deplacer(s, p, rec, r).files == s.files
  {
    hide Deplacer;
    DeplacerEffet(s, p, rec, r);
    DeplacerReste(s, p, rec, r);
    forall k ensures Chaine(Deplacer(s, p, rec, r), AttenteSem(k)) == Chaine(s, AttenteSem(k)) {
      HorsFile(s, p, AttenteSem(k));
    }
  }

  lemma DetacherIntact(s: Noyau, p: int, rec: Processus)
    requires Chainages(s) && p in s.procs && PasSurSem(s.procs[p])
    ensures SemsIntacts(s, Detacher(s, p, rec)) && Detacher(s, p, rec).files == s.files
  {
    hide Detacher;
    DetacherEffet(s, p, rec);
    DetacherReste(s, p, rec);
    forall k ensures Chaine(Detacher(s, p, rec), AttenteSem(k)) == Chaine(s, AttenteSem(k)) {
      HorsFile(s, p, AttenteSem(k));
    }
  }

  lemma OrdonnanceurIntact(s: Noyau)
    requires Coherent(s) && !Condamne(s, s.elu)
    ensures SemsIntacts(s, Ordonnanceur(s)) && Ordonnanceur(s).files == s.files
  {
    hide Ordonnanceur;
    OrdonnanceurAutres(s, AttenteFile(0));
    forall k ensures Chaine(Ordonnanceur(s), AttenteSem(k)) == Chaine(s, AttenteSem(k)) && Ordonnanceur(s).sems == s.sems {
      OrdonnanceurAutres(s, AttenteSem(k));
    }
  }

  lemma FinirIntact(s: Noyau, commute: bool)
    requires Coherent(s) && s.procs[s.elu].etat == ELU
    ensures SemsIntacts(s, Finir(s, commute)) && Finir(s, commute).files == s.files
  {
    if commute {
      EluSauf(s);
      OrdonnanceurIntact(s);
    }
  }

  /** Waking somebody who does not wait on a semaphore, then perhaps switching. */
  lemma ReveilFinirIntact(s: Noyau, p: int, rec: Processus, commute: bool)
    requires Coherent(s) && s.procs[s.elu].etat == ELU
    requires p in s.procs && p != s.elu && EnAttente(s.procs[p].etat) && s.procs[p].etat != ATTEND_SEMAPHORE
    requires rec.prio == s.procs[p].prio && rec.pere == s.procs[p].pere && rec.fils == s.procs[p].fils && AttenteFondee(rec)
    ensures var s' := Finir(Reveil(s, p, rec), commute); SemsIntacts(s, s') && s'.files == s.files
  {
    hide Finir, Deplacer;
    ReveilCoherent(s, p, rec);
    DeplacerIntact(s, p, rec.(etat := ACTIVABLE), ProcActivables);
    FinirIntact(Reveil(s, p, rec), commute);
  }

  lemma SuspendreIntact(s: Noyau, rec: Processus, r: Anneau)
    requires Inv(s) && s.elu != IDLE && !r.AttenteSem?
    requires rec.prio == Elu(s).prio && rec.pere == Elu(s).pere && rec.fils == Elu(s).fils && AttenteFondee(rec)
    requires EnAttente(rec.etat) && Accord(rec.(chainage := Dans(r))) && Admis(s, rec, r)
    ensures var s' := Ordonnanceur(Deplacer(s, s.elu, rec, r)); SemsIntacts(s, s') && s'.files == s.files
  {
    hide Ordonnanceur, Deplacer;
    var s1 := Deplacer(s, s.elu, rec, r);
    DeplacerCoherent(s, s.elu, rec, r);
    DeplacerEffet(s, s.elu, rec, r);
    DeplacerReste(s, s.elu, rec, r);
    DeplacerIntact(s, s.elu, rec, r);
    EluSauf(s1);
    OrdonnanceurIntact(s1);
  }

  // ----- files.c leaves the semaphores alone ----------------------------------------------------

  lemma PsendIntact(s: Noyau, fid: int, m: int)
    requires Inv(s) && s.elu != IDLE
    ensures !Psend(s, fid, m).Panique? && SemsIntacts(s, Psend(s, fid, m).s)
  {
    hide Reveil, Finir, Ordonnanceur, Deplacer, Tri, Sems, Trie;
    if fid in s.files {
      var f, q := s.files[fid], Chaine(s, AttenteFile(fid));
      if q != [] { TeteEnAttente(s, fid); }
      if (f.queueMsg != [] || q == []) && |f.queueMsg| == f.maxMsg {
        SuspendreIntact(s, Elu(s).(etat := ATTEND_FILE, fid := fid, fileValue := m, operationStatus := 1, suite := DansPsend),
                        AttenteFile(fid));
      } else {
        var rec := Elu(s).(fileValue := m, operationStatus := 1);
        var s0 := Maj(s, s.elu, rec);
        MajEluInv(s, rec);
        if f.queueMsg == [] && q != [] {
          var p := s.procs[q[0]];
          ReveilFinirIntact(s0, q[0], p.(fid := -1, fileValue := m, operationStatus := 1), p.prio > Elu(s).prio);
        }
      }
    }
  }

  lemma PreceiveIntact(s: Noyau, fid: int)
    requires Inv(s) && s.elu != IDLE
    ensures !Preceive(s, fid).Panique? && SemsIntacts(s, Preceive(s, fid).s)
  {
    hide Reveil, Finir, Ordonnanceur, Deplacer, Tri, Sems, Trie;
    if fid in s.files {
      var f, q := s.files[fid], Chaine(s, AttenteFile(fid));
      if f.queueMsg == [] {
        SuspendreIntact(s, Elu(s).(etat := ATTEND_FILE, fid := fid, fileValue := -1, operationStatus := 1, suite := DansPreceive),
                        AttenteFile(fid));
      } else {
        var rec := Elu(s).(fileValue := -1, operationStatus := 1);
        var s0 := Maj(s, s.elu, rec);
        MajEluInv(s, rec);
        if q != [] {
          TeteEnAttente(s, fid);
          var p := s.procs[q[0]];
          var msgs := f.queueMsg[1..] + [p.fileValue];
          MajFileInv(s0, fid, msgs);
          ReveilFinirIntact(MajFile(s0, fid, msgs), q[0], p.(fid := -1, operationStatus := 1), p.prio > Elu(s).prio);
        }
      }
    }
  }

  lemma VidageIntact(s: Noyau, r: Anneau) returns (s1: Noyau)
    requires Inv(s) && r.AttenteFile?
    ensures s1 == ReveillerListe(s, Chaine(s, r), 0)
    ensures Coherent(s1) && s1.elu == s.elu && s1.procs[s1.elu].etat == ELU && s1.files == s.files
    ensures SemsIntacts(s, s1) && Chaine(s1, r) == []
  {
    hide ReveillerListe;
    s1 := ReveillerListe(s, Chaine(s, r), 0);
    ReveillerListeEffet(s, r, 0);
  }

  lemma PresetIntact(s: Noyau, fid: int)
    requires Inv(s)
    ensures !Preset(s, fid).Panique? && SemsIntacts(s, Preset(s, fid).s)
  {
    hide ReveillerListe, Finir;
    if fid in s.files {
      var r := AttenteFile(fid);
      var s1 := VidageIntact(s, r);
      MajFileInv(s1, fid, []);
      FinirIntact(MajFile(s1, fid, []), Depasse(s, Chaine(s, r), Elu(s).prio));
    }
  }

  lemma PdeleteIntact(s: Noyau, fid: int)
    requires Inv(s)
    ensures !Pdelete(s, fid).Panique? && SemsIntacts(s, Pdelete(s, fid).s)
  {
    hide ReveillerListe, Finir;
    if fid in s.files {
      var r := AttenteFile(fid);
      var s1 := VidageIntact(s, r);
      RetireeCoherent(s1, fid);
      FinirIntact(Retiree(s1, fid), Depasse(s, Chaine(s, r), Elu(s).prio));
    }
  }

  // ----- processus.c leaves both alone ------------------------------------------------------------

  lemma StartIntact(s: Noyau, prio: int, alloue: bool)
    requires Inv(s)
    ensures var i := Start(s, prio, alloue); !i.Panique? && SemsIntacts(s, i.s) && i.s.files == s.files
  {
    hide Inscrit, QueueAdd, Finir;
    if s.libres != [] && 0 < prio <= PRIO_MAX && alloue {
      var s2 := NouveauPret(s, prio);
      NouveauIntact(s, prio);
      FinirIntact(s2, prio > Elu(s).prio);
    }
  }

  lemma NouveauIntact(s: Noyau, prio: int)
    requires Inv(s) && s.libres != []
    ensures var s2 := QueueAdd(Inscrit(s, Nouveau(s, prio, ACTIVABLE)), ProcActivables, s.libres[0]);
      SemsIntacts(s, s2) && s2.files == s.files
  {
    assert s.libres[0] in s.libres;
    assert forall r :: Chaine(Inscrit(s, Nouveau(s, prio, ACTIVABLE)), r) == Chaine(s, r);
  }

  lemma ChprioIntact(s: Noyau, pid: int, newPrio: int, mot: int)
    requires Inv(s)
    ensures var i := Chprio(s, pid, newPrio, mot); !i.Panique? && SemsIntacts(s, i.s) && i.s.files == s.files
  {
    hide Deplacer, Finir;
    if 0 < pid < MAX_PROCESS && 0 < newPrio <= PRIO_MAX && pid in s.procs && s.procs[pid].etat != ZOMBIE {
      var p := s.procs[pid];
      var rec := p.(prio := newPrio);
      if pid == s.elu {
        MajPrioCoherent(s, pid, newPrio);
        FinirIntact(Maj(s, pid, rec), newPrio < mot);
      } else if p.etat == ACTIVABLE {
        ReplacerCoherent(s, pid, newPrio, ProcActivables);
        DeplacerIntact(s, pid, rec, ProcActivables);
        FinirIntact(Deplacer(s, pid, rec, ProcActivables), Elu(s).prio < newPrio);
      } else if p.etat == ATTEND_FILE {
        DeplacerIntact(s, pid, rec, AttenteFile(p.fid));
      }
    }
  }

  lemma ReveilPereIntact(s: Noyau, pere: int)
    requires Coherent(s)
    ensures SemsIntacts(s, ReveilPere(s, pere)) && ReveilPere(s, pere).files == s.files
  {
    hide Deplacer;
    if pere in s.procs && s.procs[pere].etat == ATTEND_FILS {
      DeplacerIntact(s, pere, s.procs[pere].(etat := ACTIVABLE), ProcActivables);
    }
  }

  lemma MourirIntact(s: Noyau, e: Processus, reveille: bool)
    requires Inv(s) && s.elu != IDLE && e.prio == Elu(s).prio && e.pere == Elu(s).pere && e.fils == Elu(s).fils && AttenteFondee(e)
    ensures SemsIntacts(s, Mourir(s, e, reveille)) && Mourir(s, e, reveille).files == s.files
  {
    hide Detacher, ReveilPere;
    var rec := e.(etat := if e.pere != NULL then ZOMBIE else MOURANT);
    DetacherIntact(s, s.elu, rec);
    if reveille && e.pere != NULL {
      ZombieCoherent(s, s.elu, rec);
      ReveilPereIntact(Detacher(s, s.elu, rec), e.pere);
    }
  }

  lemma QuitterIntact(s: Noyau)
    requires Coherent(s) && DefuntsSansPere(s) && !Quitter(s).Panique?
    ensures SemsIntacts(s, Quitter(s).s) && Quitter(s).s.files == s.files
  {
    hide Ordonnanceur, FreeMourantQueue;
    QuitterInv(s);
    OrdonnanceurIntact(s);
  }

  lemma ExitIntact(s: Noyau, retval: int)
    requires Inv(s) && s.elu != IDLE && !Exit(s, retval).Panique?
    ensures SemsIntacts(s, Exit(s, retval).s) && Exit(s, retval).s.files == s.files
  {
    var e := Elu(s).(retval := retval);
    assert Exit(s, retval) == Quitter(Mourir(s, e, true));
    hide Mourir, Quitter, Exit;
    MourirInv(s, e, true);
    MourirIntact(s, e, true);
    QuitterIntact(Mourir(s, e, true));
  }

  lemma MoissonIntact(s: Noyau)
    requires Coherent(s) && DefuntsSansPere(s) && s.procs[s.elu].etat == ELU
    ensures SemsIntacts(s, FreeMourantQueue(s)) && FreeMourantQueue(s).files == s.files
  {
    hide FreeMourantQueue;
    MoissonInv(s);
  }

  /** kill takes its victim out of whatever it waits in; it leaves the semaphores alone unless
      the victim waits on one. */
  lemma KillIntact(s: Noyau, pid: int)
    requires Inv(s) && !Kill(s, pid).Panique?
    ensures Kill(s, pid).s.files == s.files && Kill(s, pid).s.sems == s.sems
    ensures (pid in s.procs ==> s.procs[pid].etat != ATTEND_SEMAPHORE) ==> SemsIntacts(s, Kill(s, pid).s)
  {
    hide Detacher, Deplacer, Quitter, ReveilPere, FreeMourantQueue;
    if pid > IDLE && pid in s.procs && s.procs[pid].etat != ZOMBIE && s.procs[pid].etat != MOURANT {
      var p := s.procs[pid];
      if pid == s.elu {
        assert Kill(s, pid) == Quitter(Mourir(s, Elu(s), false));
        MourirInv(s, Elu(s), false);
        MourirIntact(s, Elu(s), false);
        QuitterIntact(Mourir(s, Elu(s), false));
      } else if p.pere != NULL {
        TuerFilsIntact(s, pid);
      } else {
        TuerSeulIntact(s, pid);
      }
    }
  }

  lemma TuerFilsIntact(s: Noyau, pid: int)
    requires Inv(s) && pid in s.procs && pid != s.elu && pid != IDLE
    requires s.procs[pid].etat != ZOMBIE && s.procs[pid].etat != MOURANT && s.procs[pid].etat != ATTEND_FILS && s.procs[pid].pere != NULL
    ensures var s' := FreeMourantQueue(ReveilPere(Detacher(s, pid, s.procs[pid].(etat := ZOMBIE)), s.procs[pid].pere));
      s'.files == s.files && s'.sems == s.sems && (s.procs[pid].etat != ATTEND_SEMAPHORE ==> SemsIntacts(s, s'))
  {
    hide Detacher, ReveilPere, FreeMourantQueue;
    var p := s.procs[pid];
    var s1 := Detacher(s, pid, p.(etat := ZOMBIE));
    ZombieCoherent(s, pid, p.(etat := ZOMBIE));
    DetacherReste(s, pid, p.(etat := ZOMBIE));
    if p.etat != ATTEND_SEMAPHORE { DetacherIntact(s, pid, p.(etat := ZOMBIE)); }
    ReveilPereCoherent(s1, p.pere);
    ReveilPereIntact(s1, p.pere);
    MoissonIntact(ReveilPere(s1, p.pere));
  }

  lemma TuerSeulIntact(s: Noyau, pid: int)
    requires Inv(s) && pid in s.procs && pid != s.elu && pid != IDLE
    requires s.procs[pid].etat != ZOMBIE && s.procs[pid].etat != MOURANT && s.procs[pid].etat != ATTEND_FILS && s.procs[pid].pere == NULL
    ensures var s' := FreeMourantQueue(Deplacer(s, pid, s.procs[pid].(etat := MOURANT), ProcMourants));
      s'.files == s.files && s'.sems == s.sems && (s.procs[pid].etat != ATTEND_SEMAPHORE ==> SemsIntacts(s, s'))
  {
    hide Deplacer, FreeMourantQueue, Tri, Files, Sems, Trie;
    var rec := s.procs[pid].(etat := MOURANT);
    MourirCoherent(s, pid, rec);
    DeplacerEffet(s, pid, rec, ProcMourants);
    DeplacerReste(s, pid, rec, ProcMourants);
    if s.procs[pid].etat != ATTEND_SEMAPHORE { DeplacerIntact(s, pid, rec, ProcMourants); }
    MoissonIntact(Deplacer(s, pid, rec, ProcMourants));
  }

  /** kill takes its victim off the waiting list it is on, and changes no other. */
  lemma KillChaines(s: Noyau, pid: int, k: int)
    requires Inv(s) && !Kill(s, pid).Panique?
    ensures Kill(s, pid).s.sems == s.sems
    ensures Chaine(Kill(s, pid).s, AttenteSem(k)) == Without(Chaine(s, AttenteSem(k)), pid)
  {
    hide Kill, Inv, Without;
    KillIntact(s, pid);
    if pid in s.procs && s.procs[pid].etat == ATTEND_SEMAPHORE {
      SemDe(s, pid);
      SurCeSem(s, pid, s.procs[pid].chainage.anneau.sid);
      if s.procs[pid].pere != NULL { TuerFilsSem(s, pid, k); } else { TuerSeulSem(s, pid, k); }
    } else {
      PasDansSem(s, pid, k);
    }
  }

  lemma SemDe(s: Noyau, pid: int)
    requires Inv(s) && pid in s.procs && s.procs[pid].etat == ATTEND_SEMAPHORE
    ensures s.procs[pid].chainage.Dans? && s.procs[pid].chainage.anneau.AttenteSem?
  {
  }

  lemma PasDansSem(s: Noyau, pid: int, k: int)
    requires Inv(s) && (pid in s.procs ==> s.procs[pid].etat != ATTEND_SEMAPHORE)
    ensures Without(Chaine(s, AttenteSem(k)), pid) == Chaine(s, AttenteSem(k))
  {
    hide Without;
    WithoutAbsent(Chaine(s, AttenteSem(k)), pid);
  }

  lemma KillBornes(s: Noyau, pid: int)
    requires Inv(s) && Bornes(s) && !Kill(s, pid).Panique?
    ensures Bornes(Kill(s, pid).s)
  {
    hide Kill;
    forall k ensures Borne(Kill(s, pid).s, k) {
      assert Borne(s, k);
      KillChaines(s, pid, k);
    }
  }

  /** A semaphore loses track of its waiters exactly when one of them is killed. */
  lemma KillComptes(s: Noyau, pid: int)
    requires Inv(s) && Comptes(s) && !Kill(s, pid).Panique?
    ensures Comptes(Kill(s, pid).s) <==> (pid in s.procs ==> s.procs[pid].etat != ATTEND_SEMAPHORE)
  {
    hide Kill;
    KillIntact(s, pid);
    if pid in s.procs && s.procs[pid].etat == ATTEND_SEMAPHORE {
      KillPerdSem(s, pid, s.procs[pid].chainage.anneau.sid);
    } else {
      ComptesIntacts(s, Kill(s, pid).s);
    }
  }

  lemma KillPerdSem(s: Noyau, pid: int, k: int)
    requires Inv(s) && Comptes(s) && pid in s.procs && s.procs[pid].etat == ATTEND_SEMAPHORE
    requires s.procs[pid].chainage == Dans(AttenteSem(k))
    ensures !Kill(s, pid).Panique? && !Comptes(Kill(s, pid).s) && Kill(s, pid).s.sems == s.sems
    ensures Chaine(Kill(s, pid).s, AttenteSem(k)) == Without(Chaine(s, AttenteSem(k)), pid)
  {
    hide Inv, Kill, Comptes;
    SurCeSem(s, pid, k);
    KillPanique(s, pid);
    KillIntact(s, pid);
    var r := AttenteSem(k);
    if s.procs[pid].pere != NULL { TuerFilsSem(s, pid, k); } else { TuerSeulSem(s, pid, k); }
    assert |Without(Chaine(s, r), pid)| == |Chaine(s, r)| - 1;
    PlusDeCompte(s, Kill(s, pid).s, k);
  }

  lemma SurCeSem(s: Noyau, pid: int, k: int)
    requires Inv(s) && pid in s.procs && s.procs[pid].etat == ATTEND_SEMAPHORE && s.procs[pid].chainage == Dans(AttenteSem(k))
    ensures s.elu in s.procs && pid in Chaine(s, AttenteSem(k)) && k in s.sems && pid != s.elu && pid > IDLE && pid < MAX_PROCESS
  {
  }

  lemma PlusDeCompte(s: Noyau, s': Noyau, k: int)
    requires Comptes(s) && k in s.sems && s'.sems == s.sems && Chaine(s, AttenteSem(k)) != []
    requires |Chaine(s', AttenteSem(k))| == |Chaine(s, AttenteSem(k))| - 1
    ensures !Comptes(s')
  {
    assert Compte(s, k);
    assert !Compte(s', k);
  }

  lemma TuerFilsSem(s: Noyau, pid: int, k: int)
    requires Inv(s) && pid in s.procs && s.procs[pid].etat == ATTEND_SEMAPHORE && pid != s.elu && IDLE < pid < MAX_PROCESS
    requires s.procs[pid].pere != NULL
    ensures Kill(s, pid).Rend? && Chaine(Kill(s, pid).s, AttenteSem(k)) == Without(Chaine(s, AttenteSem(k)), pid)
  {
    hide Detacher, ReveilPere, FreeMourantQueue, Without, Tri, Famille, Files, Sems, Trie, Table;
    var p := s.procs[pid];
    var s1 := Detacher(s, pid, p.(etat := ZOMBIE));
    FilsDetache(s, pid);
    DetacherEffet(s, pid, p.(etat := ZOMBIE));
    ReveilPereIntact(s1, p.pere);
    MoissonIntact(ReveilPere(s1, p.pere));
  }

  /** A child that does not run becomes a zombie, and its father is woken. */
  lemma FilsDetache(s: Noyau, pid: int)
    requires Inv(s) && pid in s.procs && pid != s.elu && pid != IDLE && s.procs[pid].etat == ATTEND_SEMAPHORE
    ensures var s1 := Detacher(s, pid, s.procs[pid].(etat := ZOMBIE));
      var s2 := ReveilPere(s1, s.procs[pid].pere);
      && Coherent(s1) && DefuntsSansPere(s1) && s1.procs[s1.elu].etat == ELU
      && Coherent(s2) && DefuntsSansPere(s2) && s2.procs[s2.elu].etat == ELU
  {
    hide Detacher, ReveilPere, Tri, Files, Sems, Trie;
    ZombieCoherent(s, pid, s.procs[pid].(etat := ZOMBIE));
    ReveilPereCoherent(Detacher(s, pid, s.procs[pid].(etat := ZOMBIE)), s.procs[pid].pere);
  }

  lemma TuerSeulSem(s: Noyau, pid: int, k: int)
    requires Inv(s) && pid in s.procs && s.procs[pid].etat == ATTEND_SEMAPHORE && pid != s.elu && IDLE < pid < MAX_PROCESS
    requires s.procs[pid].pere == NULL
    ensures Kill(s, pid).Rend? && Chaine(Kill(s, pid).s, AttenteSem(k)) == Without(Chaine(s, AttenteSem(k)), pid)
  {
    hide Deplacer, FreeMourantQueue, Without, Tri, Famille, Files, Sems, Trie;
    var rec := s.procs[pid].(etat := MOURANT);
    MourirCoherent(s, pid, rec);
    DeplacerEffet(s, pid, rec, ProcMourants);
    DeplacerReste(s, pid, rec, ProcMourants);
    MoissonIntact(Deplacer(s, pid, rec, ProcMourants));
  }

  lemma EndormirIntact(s: Noyau, pid: int)
    requires Inv(s) && s.elu != IDLE && (pid >= 0 ==> pid in Elu(s).fils)
    ensures var s' := Ordonnanceur(Detacher(s, s.elu, Elu(s).(etat := ATTEND_FILS, suite := DansWaitpid(pid))));
      SemsIntacts(s, s') && s'.files == s.files
  {
    hide Ordonnanceur, Detacher;
    var rec := Elu(s).(etat := ATTEND_FILS, suite := DansWaitpid(pid));
    var s1 := Detacher(s, s.elu, rec);
    DetacherCoherent(s, s.elu, rec);
    DetacherEffet(s, s.elu, rec);
    DetacherReste(s, s.elu, rec);
    DetacherIntact(s, s.elu, rec);
    EluSauf(s1);
    OrdonnanceurIntact(s1);
  }

  lemma BoucleWaitpidIntact(s: Noyau, pid: int)
    requires Inv(s) && s.elu != IDLE && (pid >= 0 ==> pid in Elu(s).fils)
    ensures var i := BoucleWaitpid(s, pid); !i.Panique? && SemsIntacts(s, i.s) && i.s.files == s.files
  {
    hide Recueilli, FreeMourantQueue, Ordonnanceur, Detacher;
    var c := if pid < 0 then PremierZombie(s, Elu(s).fils)
             else if pid in s.procs && s.procs[pid].etat == ZOMBIE then pid else NULL;
    if c in s.procs && c != s.elu {
      RecueilliCoherent(s, c);
      RecueilliIntact(s, c);
      MoissonIntact(Recueilli(s, c));
    } else {
      EndormirIntact(s, pid);
    }
  }

  lemma RecueilliIntact(s: Noyau, c: int)
    requires Chainages(s) && s.elu in s.procs && s.procs[s.elu].chainage == Libre && c in s.procs && c != s.elu && s.procs[c].chainage == Libre
    ensures SemsIntacts(s, Recueilli(s, c)) && Recueilli(s, c).files == s.files
  {
    hide Deplacer, Without;
    var rec := Elu(s).(fils := Without(Elu(s).fils, c), suite := Utilisateur);
    var s1 := Maj(s, s.elu, rec);
    MajChainages(s, s.elu, rec);
    assert forall r :: Chaine(s1, r) == Chaine(s, r);
    DeplacerIntact(s1, c, s.procs[c].(etat := MOURANT, pere := NULL), ProcMourants);
  }

  lemma HorlogeIntact(s: Noyau, ticks: int)
    requires Inv(s) && s.elu != IDLE
    ensures SemsIntacts(s, WaitClock(s, ticks).s) && WaitClock(s, ticks).s.files == s.files
    ensures SemsIntacts(s, ConsReadBloque(s).s) && ConsReadBloque(s).s.files == s.files
  {
    hide Ordonnanceur, Deplacer;
    SuspendreIntact(s, Elu(s).(etat := ENDORMI, secReveille := ticks, suite := Utilisateur), ProcEndormis);
    SuspendreIntact(s, Elu(s).(etat := ATTEND_ES, suite := DansConsRead), ProcBloqueEs);
  }

  lemma VerifieEsIntact(s: Noyau)
    requires Inv(s)
    ensures SemsIntacts(s, VerifieEs(s)) && VerifieEs(s).files == s.files
  {
    hide Finir, Reveil;
    var q := Chaine(s, ProcBloqueEs);
    if q != [] {
      assert q[0] in q;
      ReveilFinirIntact(s, q[0], s.procs[q[0]], Elu(s).prio > s.procs[q[0]].prio);
    }
  }

  lemma {:induction false} EveillerIntact(s: Noyau, q: seq<int>, m: nat)
    requires Coherent(s) && s.procs[s.elu].etat == ELU && q == Chaine(s, ProcEndormis) && m <= |q|
    ensures SemsIntacts(s, Eveiller(s, q, m)) && Eveiller(s, q, m).files == s.files
    decreases |q|
  {
    hide Deplacer, Without;
    if |q| > m {
      var p := q[|q|-1];
      assert p in q;
      ReveilCoherent(s, p, s.procs[p]);
      DeplacerIntact(s, p, s.procs[p].(etat := ACTIVABLE), ProcActivables);
      WithoutLast(q);
      EveillerIntact(Reveil(s, p, s.procs[p]), q[..|q|-1], m);
    }
  }

  lemma VerifieReveilleIntact(s: Noyau, ticks: int)
    requires Inv(s)
    ensures SemsIntacts(s, VerifieReveille(s, ticks)) && VerifieReveille(s, ticks).files == s.files
  {
    hide Finir, Eveiller, Restants;
    var q := Chaine(s, ProcEndormis);
    var m := Restants(s.procs, q, ticks);
    EveillerEffet(s, m);
    EveillerIntact(s, q, m);
    FinirIntact(Eveiller(s, q, m), Depasse(s, q[m..], Elu(s).prio));
  }
}
