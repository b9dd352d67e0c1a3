/** No lost wake-up in waitpid: a father that sleeps has nothing to collect. */
module KernelPatience {
  import opened PriorityQueue
  import opened KernelState
  import opened KernelMoves
  import opened KernelReap
  import opened KernelSched
  import opened KernelWake
  import opened KernelFiles
  import opened KernelSem
  import opened KernelStart
  import opened KernelDeath
  import opened KernelClock

  /** Whether the father `f` blocked in waitpid waits for `c`. */
  predicate Attend(f: Processus, c: int) {
    f.etat == ATTEND_FILS && f.suite.DansWaitpid? && (if f.suite.cible >= 0 then f.suite.cible == c else c in f.fils)
  }

  /** No process blocked in waitpid has a zombie child it waits for. */
  ghost predicate SansReveilPerdu(s: Noyau) {
    forall f, c {:trigger Attend(s.procs[f], c)} ::
      f in s.procs && c in s.procs && Attend(s.procs[f], c) ==> s.procs[c].etat != ZOMBIE
  }

  /** A step in which nobody becomes a zombie and nobody falls asleep in waitpid. */
  ghost predicate Paisible(s: Noyau, s': Noyau) {
    forall p :: p in s'.procs && (s'.procs[p].etat == ZOMBIE || s'.procs[p].etat == ATTEND_FILS) ==>
      p in s.procs && s'.procs[p].etat == s.procs[p].etat && s'.procs[p].suite == s.procs[p].suite
      && s'.procs[p].fils == s.procs[p].fils
  }

  lemma PaisibleGarde(s: Noyau, s': Noyau)
    requires SansReveilPerdu(s) && Paisible(s, s')
    ensures SansReveilPerdu(s')
  {
    forall f, c | f in s'.procs && c in s'.procs && Attend(s'.procs[f], c) ensures s'.procs[c].etat != ZOMBIE {
      assert Attend(s.procs[f], c);
    }
  }

  lemma MajPaisible(s: Noyau, s': Noyau, p: int, rec: Processus)
    requires p in s.procs && s'.procs == s.procs[p := rec]
    requires rec.etat != ZOMBIE && rec.etat != ATTEND_FILS
    ensures Paisible(s, s')
  {
  }

  lemma MoissonPaisible(s: Noyau, s': Noyau)
    requires Moissonne(s, s')
    ensures Paisible(s, s')
  {
  }

  lemma ElitPaisible(s: Noyau, s': Noyau)
    requires Elit(s, s')
    ensures Paisible(s, s')
  {
  }

  /** Reaping and electing never cost a father its wake-up. */
  lemma OrdonnanceurPaisible(s: Noyau)
    requires Coherent(s) && DefuntsSansPere(s) && !Condamne(s, s.elu) && SansReveilPerdu(s)
    ensures SansReveilPerdu(Ordonnanceur(s))
  {
    hide Ordonnanceur, Commutation, FreeMourantQueue;
    OrdonnanceurInv(s);
    MoissonCoherent(s);
    var s1 := FreeMourantQueue(s);
    MoissonPaisible(s, s1);
    PaisibleGarde(s, s1);
    CommutationPaisible(s1);
  }

  lemma CommutationPaisible(s: Noyau)
    requires Coherent(s) && DefuntsSansPere(s) && Chaine(s, ProcMourants) == [] && SansReveilPerdu(s)
    ensures SansReveilPerdu(Commutation(s))
  {
    MoissonHorsMourants(s);
    if Chaine(s, ProcActivables) != [] {
      hide Commutation;
      CommutationInv(s);
      ElitPaisible(s, Commutation(s));
      PaisibleGarde(s, Commutation(s));
    }
  }

  lemma FinirPaisible(s: Noyau, s1: Noyau, commute: bool)
    requires SansReveilPerdu(s) && Paisible(s, s1)
    requires Coherent(s1) && DefuntsSansPere(s1) && s1.procs[s1.elu].etat == ELU
    ensures SansReveilPerdu(Finir(s1, commute))
  {
    hide Ordonnanceur;
    PaisibleGarde(s, s1);
    if commute {
      EluSauf(s1);
      OrdonnanceurPaisible(s1);
    }
  }

  /** Blocking for anything but a child. */
  lemma SuspendrePaisible(s: Noyau, rec: Processus, r: Anneau)
    requires Inv(s) && s.elu != IDLE && SansReveilPerdu(s)
    requires rec.prio == Elu(s).prio && rec.pere == Elu(s).pere && rec.fils == Elu(s).fils && AttenteFondee(rec)
    requires EnAttente(rec.etat) && rec.etat != ATTEND_FILS && Accord(rec.(chainage := Dans(r))) && Admis(s, rec, r)
    ensures SansReveilPerdu(Ordonnanceur(Deplacer(s, s.elu, rec, r)))
  {
    hide Ordonnanceur, Deplacer, Tri, Famille, Files, Sems, Trie;
    var s1 := Deplacer(s, s.elu, rec, r);
    DeplacerCoherent(s, s.elu, rec, r);
    DeplacerEffet(s, s.elu, rec, r);
    DeplacerElu(s, s.elu, rec, r);
    MajPaisible(s, s1, s.elu, rec.(chainage := Dans(r)));
    PaisibleGarde(s, s1);
    EluSauf(s1);
    OrdonnanceurPaisible(s1);
  }

  // ----- The calls that do not touch families -------------------------------------------------

  lemma ReveilFinirPaisible(s: Noyau, s0: Noyau, p: int, rec: Processus, commute: bool)
    requires SansReveilPerdu(s) && Paisible(s, s0)
    requires Coherent(s0) && DefuntsSansPere(s0) && s0.procs[s0.elu].etat == ELU
    requires p in s0.procs && p != s0.elu && EnAttente(s0.procs[p].etat)
    requires rec.prio == s0.procs[p].prio && rec.pere == s0.procs[p].pere && rec.fils == s0.procs[p].fils && AttenteFondee(rec)
    ensures SansReveilPerdu(Finir(Reveil(s0, p, rec), commute))
  {
    hide Reveil, Finir, Tri, Files, Sems, Trie, Table;
    ReveilCoherent(s0, p, rec);
    var s1 := Reveil(s0, p, rec);
    assert Paisible(s, s1);
    FinirPaisible(s, s1, commute);
  }

  lemma PsendPaisible(s: Noyau, fid: int, m: int)
    requires Inv(s) && s.elu != IDLE && SansReveilPerdu(s)
    ensures !Psend(s, fid, m).Panique? && SansReveilPerdu(Psend(s, fid, m).s)
  {
    hide Reveil, Finir, Ordonnanceur, Deplacer;
    if fid in s.files {
      var f, q := s.files[fid], Chaine(s, AttenteFile(fid));
      if q != [] { TeteEnAttente(s, fid); }
      if (f.queueMsg != [] || q == []) && |f.queueMsg| == f.maxMsg {
        SuspendrePaisible(s, Elu(s).(etat := ATTEND_FILE, fid := fid, fileValue := m, operationStatus := 1, suite := DansPsend),
                          AttenteFile(fid));
      } else {
        var rec := Elu(s).(fileValue := m, operationStatus := 1);
        var s0 := Maj(s, s.elu, rec);
        MajEluInv(s, rec);
        MajPaisible(s, s0, s.elu, rec);
        PaisibleGarde(s, s0);
        if f.queueMsg == [] && q != [] {
          var p := s.procs[q[0]];
          ReveilFinirPaisible(s, s0, q[0], p.(fid := -1, fileValue := m, operationStatus := 1), p.prio > Elu(s).prio);
        }
      }
    }
  }

  lemma PreceivePaisible(s: Noyau, fid: int)
    requires Inv(s) && s.elu != IDLE && SansReveilPerdu(s)
    ensures !Preceive(s, fid).Panique? && SansReveilPerdu(Preceive(s, fid).s)
  {
    hide Reveil, Finir, Ordonnanceur, Deplacer, SansReveilPerdu, Tri, Table;
    if fid in s.files {
      var f, q := s.files[fid], Chaine(s, AttenteFile(fid));
      if f.queueMsg == [] {
        SuspendrePaisible(s, Elu(s).(etat := ATTEND_FILE, fid := fid, fileValue := -1, operationStatus := 1, suite := DansPreceive),
                          AttenteFile(fid));
      } else {
        var rec := Elu(s).(fileValue := -1, operationStatus := 1);
        var s0 := Maj(s, s.elu, rec);
        if q != [] {
          TeteEnAttente(s, fid);
          EmetteurPaisible(s, s0, fid);
        } else {
          MajPaisible(s, MajFile(s0, fid, f.queueMsg[1..]), s.elu, rec);
          PaisibleGarde(s, MajFile(s0, fid, f.queueMsg[1..]));
        }
      }
    }
  }

  lemma EmetteurPaisible(s: Noyau, s0: Noyau, fid: int)
    requires Inv(s) && SansReveilPerdu(s) && fid in s.files && s.files[fid].queueMsg != []
    requires s0 == Maj(s, s.elu, Elu(s).(fileValue := -1, operationStatus := 1))
    requires var q := Chaine(s, AttenteFile(fid)); q != [] && q[0] in s.procs && q[0] != s.elu && EnAttente(s.procs[q[0]].etat)
    ensures var f, x := s.files[fid], Chaine(s, AttenteFile(fid))[0];
      var p := s.procs[x];
      var s1 := MajFile(s0, fid, f.queueMsg[1..] + [p.fileValue]);
      SansReveilPerdu(Finir(Reveil(s1, x, p.(fid := -1, operationStatus := 1)), p.prio > Elu(s).prio))
  {
    hide Reveil, Finir, SansReveilPerdu, Tri, Table;
    var f, x, rec := s.files[fid], Chaine(s, AttenteFile(fid))[0], Elu(s).(fileValue := -1, operationStatus := 1);
    var p := s.procs[x];
    var s1 := MajFile(s0, fid, f.queueMsg[1..] + [p.fileValue]);
    MajEluInv(s, rec);
    MajFileInv(s0, fid, f.queueMsg[1..] + [p.fileValue]);
    MajPaisible(s, s1, s.elu, rec);
    ReveilFinirPaisible(s, s1, x, p.(fid := -1, operationStatus := 1), p.prio > Elu(s).prio);
  }

  lemma VideePaisible(s: Noyau, r: Anneau, status: int, s': Noyau)
    requires Videe(s, r, status, s')
    ensures Paisible(s, s')
  {
  }

  lemma VidagePaisible(s: Noyau, r: Anneau, status: int) returns (s1: Noyau)
    requires Inv(s) && SansReveilPerdu(s) && FileDAttente(r)
    ensures s1 == ReveillerListe(s, Chaine(s, r), status)
    ensures Coherent(s1) && DefuntsSansPere(s1) && s1.elu == s.elu && s1.procs[s1.elu].etat == ELU && s1.files == s.files
    ensures Paisible(s, s1) && SansReveilPerdu(s1) && Chaine(s1, r) == []
  {
    hide ReveillerListe, SansReveilPerdu;
    s1 := ReveillerListe(s, Chaine(s, r), status);
    ReveillerListeEffet(s, r, status);
    VideePaisible(s, r, status, s1);
    PaisibleGarde(s, s1);
  }

  lemma PaisiblePareil(s: Noyau, s1: Noyau, s': Noyau)
    requires Paisible(s, s1) && s'.procs == s1.procs
    ensures Paisible(s, s')
  {
  }

  lemma PresetPaisible(s: Noyau, fid: int)
    requires Inv(s) && SansReveilPerdu(s)
    ensures !Preset(s, fid).Panique? && SansReveilPerdu(Preset(s, fid).s)
  {
    hide ReveillerListe, Finir, Paisible, SansReveilPerdu;
    if fid in s.files {
      var s1 := VidagePaisible(s, AttenteFile(fid), 0);
      MajFileInv(s1, fid, []);
      PaisiblePareil(s, s1, MajFile(s1, fid, []));
      FinirPaisible(s, MajFile(s1, fid, []), Depasse(s, Chaine(s, AttenteFile(fid)), Elu(s).prio));
    }
  }

  lemma PdeletePaisible(s: Noyau, fid: int)
    requires Inv(s) && SansReveilPerdu(s)
    ensures !Pdelete(s, fid).Panique? && SansReveilPerdu(Pdelete(s, fid).s)
  {
    hide ReveillerListe, Finir, Paisible, SansReveilPerdu;
    if fid in s.files {
      var s1 := VidagePaisible(s, AttenteFile(fid), 0);
      RetireeCoherent(s1, fid);
      PaisiblePareil(s, s1, Retiree(s1, fid));
      FinirPaisible(s, Retiree(s1, fid), Depasse(s, Chaine(s, AttenteFile(fid)), Elu(s).prio));
    }
  }

  lemma SviderPaisible(s: Noyau, sid: int, count: int)
    requires Inv(s) && SansReveilPerdu(s)
    ensures SansReveilPerdu(Sdelete(s, sid).s) && SansReveilPerdu(Sreset(s, sid, count).s)
  {
    hide ReveillerListe, Inv;
    if sid in s.sems {
      var s1 := VidagePaisible(s, AttenteSem(sid), -3);
      var s2 := VidagePaisible(s, AttenteSem(sid), -4);
    }
  }

  lemma SignalPaisible(s: Noyau, sid: int)
    requires Inv(s) && SansReveilPerdu(s) && sid in s.sems && !Signal(s, sid).Panique?
    ensures SansReveilPerdu(Signal(s, sid).s)
  {
    hide Reveil, SignalTete;
    if s.sems[sid] < 0 && s.sems[sid] <= SHORTINT_MAX - 1 {
      SignalTeteEffet(s, sid);
      SignalDeplie(s, sid);
      PaisibleGarde(s, SignalTete(s, sid));
    }
  }

  lemma SignalToutPaisible(s: Noyau, sid: int)
    requires Inv(s) && SansReveilPerdu(s) && !Signal(s, sid).Panique?
    ensures SansReveilPerdu(Signal(s, sid).s)
  {
    hide SansReveilPerdu, Inv;
    if sid in s.sems { SignalPaisible(s, sid); }
  }

  lemma {:induction false} SignauxPaisible(s: Noyau, sid: int, n: int)
    requires Inv(s) && SansReveilPerdu(s) && !Signaux(s, sid, n).Panique?
    ensures SansReveilPerdu(Signaux(s, sid, n).s) && Inv(Signaux(s, sid, n).s)
    decreases n
  {
    hide Signal;
    if n > 0 && Signal(s, sid).Rend? {
      SignalInv(s, sid);
      SignalToutPaisible(s, sid);
      SignauxPaisible(Signal(s, sid).s, sid, n - 1);
    }
  }

  lemma WaitPaisible(s: Noyau, sid: int)
    requires Inv(s) && s.elu != IDLE && SansReveilPerdu(s)
    ensures !Wait(s, sid).Panique? && SansReveilPerdu(Wait(s, sid).s)
  {
    hide Ordonnanceur, Deplacer, Inv, Coherent, MajSem, Admis, Accord, AttenteFondee;
    if sid in s.sems && s.sems[sid] > SHORTINT_MIN {
      var s1 := MajSem(s, sid, s.sems[sid] - 1);
      WaitEnAttente(s, sid);
      if s.sems[sid] - 1 < 0 {
        SuspendrePaisible(s1, Elu(s).(etat := ATTEND_SEMAPHORE, suite := DansWait), AttenteSem(sid));
      }
    }
  }

  lemma HorlogePaisible(s: Noyau, ticks: int)
    requires Inv(s) && SansReveilPerdu(s) && s.elu != IDLE
    ensures SansReveilPerdu(WaitClock(s, ticks).s) && SansReveilPerdu(ConsReadBloque(s).s)
  {
    hide Ordonnanceur, Deplacer, SansReveilPerdu;
    SuspendrePaisible(s, Elu(s).(etat := ENDORMI, secReveille := ticks, suite := Utilisateur), ProcEndormis);
    SuspendrePaisible(s, Elu(s).(etat := ATTEND_ES, suite := DansConsRead), ProcBloqueEs);
  }

  lemma VerifieReveillePaisible(s: Noyau, ticks: int)
    requires Inv(s) && SansReveilPerdu(s)
    ensures SansReveilPerdu(VerifieReveille(s, ticks))
  {
    hide Eveiller, Finir, Restants, SansReveilPerdu;
    var q := Chaine(s, ProcEndormis);
    var m := Restants(s.procs, q, ticks);
    EveillerEffet(s, m);
    EveillesPaisible(s, m, Eveiller(s, q, m));
    FinirPaisible(s, Eveiller(s, q, m), Depasse(s, q[m..], Elu(s).prio));
  }

  lemma EveillesPaisible(s: Noyau, m: nat, s': Noyau)
    requires Eveilles(s, m, s') && Chainages(s) && Etats(s) && s.procs[s.elu].etat == ELU
    ensures Paisible(s, s') && s'.procs[s'.elu].etat == ELU
  {
  }

  lemma VerifieEsPaisible(s: Noyau)
    requires Inv(s) && SansReveilPerdu(s)
    ensures SansReveilPerdu(VerifieEs(s))
  {
    hide Reveil, Finir, SansReveilPerdu;
    var es := Chaine(s, ProcBloqueEs);
    if es != [] {
      assert es[0] in es;
      ReveilFinirPaisible(s, s, es[0], s.procs[es[0]], Elu(s).prio > s.procs[es[0]].prio);
    }
  }

  // ----- Births and deaths --------------------------------------------------------------------

  lemma StartPaisible(s: Noyau, prio: int, alloue: bool)
    requires Inv(s) && SansReveilPerdu(s)
    ensures !Start(s, prio, alloue).Panique? && SansReveilPerdu(Start(s, prio, alloue).s)
  {
    hide Inscrit, QueueAdd, Finir;
    if s.libres != [] && 0 < prio <= PRIO_MAX && alloue {
      var s2 := NouveauPret(s, prio);
      NouveauPaisible(s, prio);
      FinirPaisible(s, s2, prio > Elu(s).prio);
    }
  }

  lemma NouveauPaisible(s: Noyau, prio: int)
    requires Inv(s) && s.libres != [] && 0 < prio <= PRIO_MAX
    ensures Paisible(s, QueueAdd(Inscrit(s, Nouveau(s, prio, ACTIVABLE)), ProcActivables, s.libres[0]))
  {
    assert s.libres[0] in s.libres;
  }

  lemma MajMemePaisible(s: Noyau, s': Noyau, p: int, rec: Processus)
    requires p in s.procs && s'.procs == s.procs[p := rec]
    requires rec.etat == s.procs[p].etat && rec.suite == s.procs[p].suite && rec.fils == s.procs[p].fils
    ensures Paisible(s, s')
  {
  }

  lemma ChprioPaisible(s: Noyau, pid: int, newPrio: int, mot: int)
    requires Inv(s) && SansReveilPerdu(s)
    ensures !Chprio(s, pid, newPrio, mot).Panique? && SansReveilPerdu(Chprio(s, pid, newPrio, mot).s)
  {
    hide Deplacer, Finir, SansReveilPerdu, Paisible;
    if 0 < pid < MAX_PROCESS && 0 < newPrio <= PRIO_MAX && pid in s.procs && s.procs[pid].etat != ZOMBIE {
      var p := s.procs[pid];
      var rec := p.(prio := newPrio);
      if pid == s.elu {
        MajPrioCoherent(s, pid, newPrio);
        MajMemePaisible(s, Maj(s, pid, rec), pid, rec);
        FinirPaisible(s, Maj(s, pid, rec), newPrio < mot);
      } else if p.etat == ACTIVABLE || p.etat == ATTEND_FILE {
        var r := p.chainage.anneau;
        ReplacerCoherent(s, pid, newPrio, r);
        MajMemePaisible(s, Deplacer(s, pid, rec, r), pid, rec);
        PaisibleGarde(s, Deplacer(s, pid, rec, r));
        FinirPaisible(s, Deplacer(s, pid, rec, r), Elu(s).prio < newPrio);
      } else {
        MajMemePaisible(s, Maj(s, pid, rec), pid, rec);
        PaisibleGarde(s, Maj(s, pid, rec));
      }
    }
  }

  /** A new zombie whose father, if it was waiting for it, is woken in the same breath. */
  lemma ZombieAnnonce(s: Noyau, c: int, s': Noyau)
    requires Famille(s) && SansReveilPerdu(s) && c in s.procs && NULL !in s.procs
    requires forall p :: p in s'.procs && p != c && (s'.procs[p].etat == ZOMBIE || s'.procs[p].etat == ATTEND_FILS) ==>
      p in s.procs && s'.procs[p].etat == s.procs[p].etat && s'.procs[p].suite == s.procs[p].suite && s'.procs[p].fils == s.procs[p].fils
    requires c in s'.procs ==> s'.procs[c].etat != ATTEND_FILS
    requires s.procs[c].pere in s'.procs && c in s'.procs ==> !Attend(s'.procs[s.procs[c].pere], c)
    ensures SansReveilPerdu(s')
  {
    forall f, x | f in s'.procs && x in s'.procs && Attend(s'.procs[f], x) ensures s'.procs[x].etat != ZOMBIE {
      assert Attend(s.procs[f], x);
      assert AttenteFondee(s.procs[f]);
      assert x in s.procs[f].fils;
    }
  }

  /** exit wakes its father, so no wake-up is lost. */
  lemma MourirAnnonce(s: Noyau, e: Processus, reveille: bool)
    requires Inv(s) && s.elu != IDLE && e.prio == Elu(s).prio && e.pere == Elu(s).pere && e.fils == Elu(s).fils && AttenteFondee(e)
    requires SansReveilPerdu(s) && e.pere != NULL
    requires reveille || !Attend(s.procs[e.pere], s.elu)
    ensures SansReveilPerdu(Mourir(s, e, reveille))
  {
    hide Detacher, ReveilPere, Tri, Files, Sems, Trie;
    var rec := e.(etat := ZOMBIE);
    var s1 := Detacher(s, s.elu, rec);
    ZombieCoherent(s, s.elu, rec);
    if reveille { ReveilPereCoherent(s1, e.pere); }
    assert Elu(s).pere == e.pere;
    ZombieAnnonce(s, s.elu, Mourir(s, e, reveille));
  }

  lemma QuitterPaisible(s: Noyau)
    requires Coherent(s) && DefuntsSansPere(s) && SansReveilPerdu(s) && !Quitter(s).Panique?
    ensures SansReveilPerdu(Quitter(s).s)
  {
    hide Ordonnanceur, FreeMourantQueue;
    QuitterInv(s);
    OrdonnanceurPaisible(s);
  }

  lemma MourirSeul(s: Noyau, e: Processus, reveille: bool)
    requires Inv(s) && s.elu != IDLE && e.pere == NULL && SansReveilPerdu(s)
    ensures SansReveilPerdu(Mourir(s, e, reveille))
  {
    var rec := e.(etat := MOURANT);
    DetacherEffet(s, s.elu, rec);
    hide Detacher;
    PaisibleGarde(s, Detacher(s, s.elu, rec));
  }

  lemma ExitPaisible(s: Noyau, retval: int)
    requires Inv(s) && s.elu != IDLE && SansReveilPerdu(s) && !Exit(s, retval).Panique?
    ensures SansReveilPerdu(Exit(s, retval).s)
  {
    var e := Elu(s).(retval := retval);
    assert Exit(s, retval) == Quitter(Mourir(s, e, true));
    hide Mourir, Quitter, Exit;
    MourirInv(s, e, true);
    if e.pere != NULL { MourirAnnonce(s, e, true); } else { MourirSeul(s, e, true); }
    QuitterPaisible(Mourir(s, e, true));
  }

  /** kill keeps the rule too, unless a process kills itself while its father waits for it. */
  lemma KillPaisible(s: Noyau, pid: int)
    requires Inv(s) && SansReveilPerdu(s) && !Kill(s, pid).Panique?
    requires pid == s.elu && pid > IDLE && Elu(s).pere != NULL ==> !Attend(s.procs[Elu(s).pere], pid)
    ensures SansReveilPerdu(Kill(s, pid).s)
  {
    hide Detacher, Deplacer, Quitter, ReveilPere, FreeMourantQueue, SansReveilPerdu;
    if pid > IDLE && pid in s.procs && s.procs[pid].etat != ZOMBIE && s.procs[pid].etat != MOURANT {
      var p := s.procs[pid];
      if pid == s.elu {
        assert Kill(s, pid) == Quitter(Mourir(s, Elu(s), false));
        MourirInv(s, Elu(s), false);
        if p.pere != NULL { MourirAnnonce(s, Elu(s), false); } else { MourirSeul(s, Elu(s), false); }
        QuitterPaisible(Mourir(s, Elu(s), false));
      } else if p.pere != NULL {
        TuerAnnonce(s, pid);
      } else {
        var rec := p.(etat := MOURANT);
        MourirCoherent(s, pid, rec);
        DeplacerEffet(s, pid, rec, ProcMourants);
        DeplacerElu(s, pid, rec, ProcMourants);
        var s1 := Deplacer(s, pid, rec, ProcMourants);
        MajPaisible(s, s1, pid, rec.(chainage := Dans(ProcMourants)));
        PaisibleGarde(s, s1);
        MoissonInv(s1);
        MoissonPaisible(s1, FreeMourantQueue(s1));
        PaisibleGarde(s1, FreeMourantQueue(s1));
      }
    }
  }

  lemma TuerAnnonce(s: Noyau, pid: int)
    requires Inv(s) && SansReveilPerdu(s) && pid in s.procs && pid != s.elu && pid != IDLE
    requires s.procs[pid].etat != ZOMBIE && s.procs[pid].etat != MOURANT && s.procs[pid].etat != ATTEND_FILS
    requires s.procs[pid].pere != NULL
    ensures SansReveilPerdu(FreeMourantQueue(ReveilPere(Detacher(s, pid, s.procs[pid].(etat := ZOMBIE)), s.procs[pid].pere)))
  {
    hide Detacher, ReveilPere, FreeMourantQueue, Tri, Files, Sems, Trie;
    var rec, pere := s.procs[pid].(etat := ZOMBIE), s.procs[pid].pere;
    var s1 := Detacher(s, pid, rec);
    ZombieCoherent(s, pid, rec);
    ReveilPereCoherent(s1, pere);
    var s2 := ReveilPere(s1, pere);
    ZombieAnnonce(s, pid, s2);
    MoissonInv(s2);
    MoissonPaisible(s2, FreeMourantQueue(s2));
    PaisibleGarde(s2, FreeMourantQueue(s2));
  }

  lemma WaitpidPaisible(s: Noyau, pid: int)
    requires Inv(s) && s.elu != IDLE && SansReveilPerdu(s) && (pid >= 0 ==> pid in Elu(s).fils)
    ensures !BoucleWaitpid(s, pid).Panique? && SansReveilPerdu(BoucleWaitpid(s, pid).s)
  {
    hide Recueilli, FreeMourantQueue, Ordonnanceur, Detacher;
    var c := if pid < 0 then PremierZombie(s, Elu(s).fils)
             else if pid in s.procs && s.procs[pid].etat == ZOMBIE then pid else NULL;
    if c in s.procs && c != s.elu {
      RecueilliPaisible(s, c);
    } else {
      PatienterPaisible(s, pid);
    }
  }

  lemma RecueilliPaisible(s: Noyau, c: int)
    requires Inv(s) && SansReveilPerdu(s) && c in Elu(s).fils && c in s.procs && s.procs[c].etat == ZOMBIE && c != s.elu
    ensures SansReveilPerdu(FreeMourantQueue(Recueilli(s, c)))
  {
    hide Recueilli, FreeMourantQueue, Without;
    var s1 := Recueilli(s, c);
    RecueilliFiles(s, c);
    RecueilliCoherent(s, c);
    PaisibleGarde(s, s1);
    MoissonInv(s1);
    MoissonPaisible(s1, FreeMourantQueue(s1));
    PaisibleGarde(s1, FreeMourantQueue(s1));
  }

  /** A father falls asleep only after having seen that nothing it waits for is dead. */
  lemma PatienterPaisible(s: Noyau, pid: int)
    requires Inv(s) && s.elu != IDLE && SansReveilPerdu(s) && (pid >= 0 ==> pid in Elu(s).fils)
    requires pid >= 0 ==> pid in s.procs && s.procs[pid].etat != ZOMBIE
    requires pid < 0 ==> forall x :: x in Elu(s).fils && x in s.procs ==> s.procs[x].etat != ZOMBIE
    ensures SansReveilPerdu(Ordonnanceur(Detacher(s, s.elu, Elu(s).(etat := ATTEND_FILS, suite := DansWaitpid(pid)))))
  {
    hide Ordonnanceur, Detacher;
    var rec := Elu(s).(etat := ATTEND_FILS, suite := DansWaitpid(pid));
    var s1 := Detacher(s, s.elu, rec);
    DetacherCoherent(s, s.elu, rec);
    DetacherEffet(s, s.elu, rec);
    DetacherElu(s, s.elu, rec);
    EluSauf(s1);
    forall f, c | f in s1.procs && c in s1.procs && Attend(s1.procs[f], c) ensures s1.procs[c].etat != ZOMBIE {
      if f != s.elu { assert Attend(s.procs[f], c); }
    }
    OrdonnanceurPaisible(s1);
  }
}
