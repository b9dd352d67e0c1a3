/** The effect of single calls, beyond what all steps have in common: where a process is queued,
    whom a death touches, what a new queue or semaphore holds. */
module KernelEffects {
  import opened PriorityQueue
  import opened KernelState
  import opened KernelMoves
  import opened KernelReap
  import opened KernelSched
  import opened KernelWake
  import opened KernelFiles
  import opened KernelSem
  import opened KernelStart
  import opened KernelDeath
  import opened KernelClock
  import opened KernelFrames
  import opened KernelFollow
  import opened KernelSteps
  import opened KernelTraffic
  import opened KernelAnswers
  import opened KernelWrites
  import opened KernelReplies

  // ----- Where a process is queued --------------------------------------------------------------------

  /** `q2` is `q` with `p` put in behind everybody whose key is at least `cle`, and ahead of
      everybody else. */
  ghost predicate Derriere(procs: map<int, Processus>, c: Champ, q: seq<int>, p: int, cle: int, q2: seq<int>) {
    exists k: nat {:trigger Insert(q, k, p)} :: k <= |q| && q2 == Insert(q, k, p)
      && (forall i :: 0 <= i < k ==> CleDe(procs, c, q[i]) >= cle)
      && (forall i :: k <= i < |q| ==> CleDe(procs, c, q[i]) < cle)
  }

  lemma RangDerriere(procs: map<int, Processus>, r: Anneau, q: seq<int>, p: int, rec: Processus)
    requires Sorted(Cles(procs, ChampDe(r), q))
    ensures Derriere(procs, ChampDe(r), q, p, Cle(rec, ChampDe(r)), Insert(q, Rang(procs, r, q, rec), p))
  {
    var keys, k := Cles(procs, ChampDe(r), q), Rang(procs, r, q, rec);
    forall i | 0 <= i < k ensures CleDe(procs, ChampDe(r), q[i]) >= Cle(rec, ChampDe(r)) {
      assert i == k - 1 || Lt(i, k - 1);
      assert keys[i] == CleDe(procs, ChampDe(r), q[i]);
    }
    forall i | k <= i < |q| ensures CleDe(procs, ChampDe(r), q[i]) < Cle(rec, ChampDe(r)) {
      assert keys[i] == CleDe(procs, ChampDe(r), q[i]);
    }
  }

  lemma DeplacerDerriere(s: Noyau, p: int, rec: Processus, r: Anneau)
    requires p in s.procs && Chainages(s) && Trie(s, r)
    ensures Derriere(s.procs, ChampDe(r), Without(Chaine(s, r), p), p, Cle(rec, ChampDe(r)), Chaine(Deplacer(s, p, rec, r), r))
  {
    hide Derriere, Deplacer;
    var q := Without(Chaine(s, r), p);
    var s1 := s.(anneaux := s.anneaux[r := q]);
    assert Chaine(s1, r) == q;
    TrieSans(s, s1, r, p);
    DeplacerEffet(s, p, rec, r);
    RangDerriere(s.procs, r, q, p, rec);
  }

  lemma SuspenduDerriere(s: Noyau, rec: Processus, r: Anneau)
    requires Inv(s) && s.elu != IDLE && Trie(s, r) && r != ProcActivables && r != ProcMourants
    requires rec.prio == Elu(s).prio && rec.pere == Elu(s).pere && rec.fils == Elu(s).fils && AttenteFondee(rec)
    requires EnAttente(rec.etat) && Accord(rec.(chainage := Dans(r))) && Admis(s, rec, r)
    ensures Derriere(s.procs, ChampDe(r), Chaine(s, r), s.elu, Cle(rec, ChampDe(r)), Chaine(Ordonnanceur(Deplacer(s, s.elu, rec, r)), r))
  {
    hide Ordonnanceur, Deplacer, Admis, Tri, Famille, Files, Sems, Derriere;
    HorsFile(s, s.elu, r);
    DeplacerDerriere(s, s.elu, rec, r);
    DeplacerCoherent(s, s.elu, rec, r);
    DeplacerEffet(s, s.elu, rec, r);
    DeplacerElu(s, s.elu, rec, r);
    EluSauf(Deplacer(s, s.elu, rec, r));
    OrdonnanceurAutres(Deplacer(s, s.elu, rec, r), r);
  }

  /** A process that blocks on a message queue waits behind those of its priority or above, and
      ahead of the others. */
  lemma AttenteDerriere(s: Noyau, a: Appel)
    requires Inv(s) && Legal(s, a) && (a.SysPsend? || a.SysPreceive?) && Faire(s, a).Suspend?
    ensures Derriere(s.procs, Prio, Chaine(s, AttenteFile(a.fid)), s.elu, Elu(s).prio, Chaine(Faire(s, a).s, AttenteFile(a.fid)))
  {
    hide Ordonnanceur, Deplacer, Derriere, Remise, Finir, Reveil;
    var r := AttenteFile(a.fid);
    assert Trie(s, r);
    if a.SysPsend? {
      if Chaine(s, r) != [] { TeteEnAttente(s, a.fid); }
      SuspenduDerriere(s, Elu(s).(etat := ATTEND_FILE, fid := a.fid, fileValue := a.message, operationStatus := 1, suite := DansPsend), r);
    } else {
      SuspenduDerriere(s, Elu(s).(etat := ATTEND_FILE, fid := a.fid, fileValue := -1, operationStatus := 1, suite := DansPreceive), r);
    }
  }

  // ----- Sleeping -----------------------------------------------------------------------------------

  /** Asleep until the given tick. */
  predicate Dort(s: Noyau, p: int, ticks: int) {
    p in s.procs && s.procs[p].etat == ENDORMI && s.procs[p].chainage == Dans(ProcEndormis) && s.procs[p].secReveille == ticks
  }

  /** wait_clock: the caller sleeps until the tick it asked for, behind the sleepers that are to
      wake then or later, and ahead of those that are to wake before. */
  lemma WaitClockEffet(s: Noyau, ticks: int)
    requires Inv(s) && Legal(s, SysWaitClock(ticks))
    ensures var i := WaitClock(s, ticks);
      && i.Suspend? && Dort(i.s, s.elu, ticks)
      && Derriere(s.procs, SecReveille, Chaine(s, ProcEndormis), s.elu, ticks, Chaine(i.s, ProcEndormis))
  {
    hide Ordonnanceur, Deplacer, Derriere, Devient;
    SuspensionsEcrits(s, ticks);
    EluEndormi(s, ticks, WaitClock(s, ticks).s);
    SuspenduDerriere(s, Elu(s).(etat := ENDORMI, secReveille := ticks, suite := Utilisateur), ProcEndormis);
  }

  lemma EluEndormi(s: Noyau, ticks: int, s': Noyau)
    requires s.elu in s.procs
    requires Devient(s.procs[s.elu := Bloquer(Elu(s), ENDORMI, ProcEndormis, Utilisateur).(secReveille := ticks)], s')
    ensures Dort(s', s.elu, ticks)
  {
  }

  /** The tick leaves the sleepers that are not due where they were; each of the others is ready,
      or already running. */
  lemma ReveilsEffet(s: Noyau, ticks: int)
    requires Inv(s)
    ensures var s', q := VerifieReveille(s, ticks), Chaine(s, ProcEndormis);
      && (forall p :: p in q ==> p in s.procs && p in s'.procs)
      && (forall p :: p in q && s.procs[p].secReveille > ticks ==> s'.procs[p] == s.procs[p].(pere := s'.procs[p].pere))
      && (forall p :: p in q && s.procs[p].secReveille <= ticks ==> Actif(s'.procs[p]) && s'.procs[p].prio == s.procs[p].prio)
  {
    hide VerifieReveille, Devient, Ecrits;
    ReveilsEcrits(s, ticks);
    forall p | p in Chaine(s, ProcEndormis)
      ensures p in s.procs && p in VerifieReveille(s, ticks).procs
      ensures var y := VerifieReveille(s, ticks).procs[p];
        && (s.procs[p].secReveille > ticks ==> y == s.procs[p].(pere := y.pere))
        && (s.procs[p].secReveille <= ticks ==> Actif(y) && y.prio == s.procs[p].prio)
    {
      UnSommeil(s, ticks, p, VerifieReveille(s, ticks));
    }
  }

  lemma UnSommeil(s: Noyau, ticks: int, p: int, s': Noyau)
    requires Inv(s) && Devient(Ecrits(s, Reveils(ticks)), s') && p in Chaine(s, ProcEndormis)
    ensures p in s.procs && p in s'.procs
    ensures s.procs[p].secReveille > ticks ==> s'.procs[p] == s.procs[p].(pere := s'.procs[p].pere)
    ensures s.procs[p].secReveille <= ticks ==> Actif(s'.procs[p]) && s'.procs[p].prio == s.procs[p].prio
  {
    hide Tri, Files, Sems, Famille, Table;
    assert s.procs[p].etat == ENDORMI;
    var x := Ecrits(s, Reveils(ticks))[p];
    assert x == if s.procs[p].secReveille <= ticks then Pret(s.procs[p]) else s.procs[p];
    assert Inchange(x, s'.procs[p]);
  }

  // ----- chprio ---------------------------------------------------------------------------------------

  lemma DevientSeul(s: Noyau, p: int, rec: Processus, s': Noyau)
    requires p in s.procs && Devient(s.procs[p := rec], s')
    ensures forall x :: x in s.procs && x in s'.procs && x != p ==> Inchange(s.procs[x], s'.procs[x])
    ensures p in s'.procs ==> Inchange(rec, s'.procs[p])
    ensures Vif(rec) ==> p in s'.procs
  {
    var t := s.procs[p := rec];
    forall x | x in s.procs && x in s'.procs && x != p ensures Inchange(s.procs[x], s'.procs[x]) {
      assert t[x] == s.procs[x];
    }
    assert t[p] == rec;
  }

  /** chprio of a process of the table that is not a zombie answers its old priority, gives it the
      new one and changes no other priority; everything else is an error, and changes nothing.  A
      ready process is put back behind those it does not outrank, and takes over if it outranks
      the caller; a process waiting for a message or a place is put back in the same way. */
  lemma ChprioEffet(s: Noyau, pid: int, newPrio: int, mot: int)
    requires Inv(s)
    ensures var i := Chprio(s, pid, newPrio, mot);
      if ChprioValide(s, pid, newPrio) then
        && i.Rend? && i.code == s.procs[pid].prio && i.code > 0
        && pid in i.s.procs && Inchange(s.procs[pid].(prio := newPrio), i.s.procs[pid])
        && (forall x :: x in s.procs && x in i.s.procs && x != pid ==> Inchange(s.procs[x], i.s.procs[x]))
        && (s.procs[pid].etat == ATTEND_FILE ==>
              var r := AttenteFile(s.procs[pid].fid);
              i.s.elu == s.elu && Derriere(s.procs, Prio, Without(Chaine(s, r), pid), pid, newPrio, Chaine(i.s, r)))
        && (s.procs[pid].etat == ACTIVABLE && newPrio <= Elu(s).prio ==>
              i.s.elu == s.elu && Derriere(s.procs, Prio, Without(Chaine(s, ProcActivables), pid), pid, newPrio, Chaine(i.s, ProcActivables)))
        && (s.procs[pid].etat == ACTIVABLE && newPrio > Elu(s).prio && Preeminent(s) ==> i.s.elu == pid)
      else i == Rend(s, -1, 0)
  {
    hide Chprio, Inv, Derriere, Devient, Preeminent;
    Sujet(s, s.elu);
    if ChprioValide(s, pid, newPrio) {
      ChprioEcrits(s, pid, newPrio, mot);
      PrioPositive(s, pid);
      ChprioForme(s, pid, newPrio, mot);
      DevientSeul(s, pid, s.procs[pid].(prio := newPrio), Chprio(s, pid, newPrio, mot).s);
      ChprioPresent(s, pid, newPrio, mot);
      ChprioRang(s, pid, newPrio, mot);
      if s.procs[pid].etat == ACTIVABLE && newPrio > Elu(s).prio && Preeminent(s) { ChprioElu(s, pid, newPrio, mot); }
    } else {
      ChprioRefus(s, pid, newPrio, mot);
    }
  }

  lemma ChprioRefus(s: Noyau, pid: int, newPrio: int, mot: int)
    requires s.elu in s.procs && !ChprioValide(s, pid, newPrio)
    ensures Chprio(s, pid, newPrio, mot) == Rend(s, -1, 0)
  {
  }

  lemma ChprioForme(s: Noyau, pid: int, newPrio: int, mot: int)
    requires s.elu in s.procs && ChprioValide(s, pid, newPrio)
    ensures Chprio(s, pid, newPrio, mot).Rend? && Chprio(s, pid, newPrio, mot).code == s.procs[pid].prio
  {
    hide Finir, Deplacer;
  }

  lemma ChprioPresent(s: Noyau, pid: int, newPrio: int, mot: int)
    requires Inv(s) && ChprioValide(s, pid, newPrio)
    ensures pid in Chprio(s, pid, newPrio, mot).s.procs
  {
    hide Chprio;
    if Actif(s.procs[pid]) { ChprioActif(s, pid, newPrio, mot); } else { ChprioReste(s, pid, newPrio, mot); }
  }

  lemma ChprioRang(s: Noyau, pid: int, newPrio: int, mot: int)
    requires Inv(s) && ChprioValide(s, pid, newPrio)
    ensures var s' := Chprio(s, pid, newPrio, mot).s;
      && (s.procs[pid].etat == ATTEND_FILE ==>
            var r := AttenteFile(s.procs[pid].fid);
            s'.elu == s.elu && Derriere(s.procs, Prio, Without(Chaine(s, r), pid), pid, newPrio, Chaine(s', r)))
      && (s.procs[pid].etat == ACTIVABLE && newPrio <= Elu(s).prio ==>
            s'.elu == s.elu && Derriere(s.procs, Prio, Without(Chaine(s, ProcActivables), pid), pid, newPrio, Chaine(s', ProcActivables)))
  {
    hide Deplacer, Derriere, Ordonnanceur, Files, Sems, Famille, Table;
    var p := s.procs[pid];
    var rec := p.(prio := newPrio);
    if pid != s.elu && (p.etat == ATTEND_FILE || p.etat == ACTIVABLE) {
      var r := if p.etat == ACTIVABLE then ProcActivables else AttenteFile(p.fid);
      assert Trie(s, r);
      DeplacerDerriere(s, pid, rec, r);
      DeplacerElu(s, pid, rec, r);
    }
  }

  lemma ChprioElu(s: Noyau, pid: int, newPrio: int, mot: int)
    requires Inv(s) && ChprioValide(s, pid, newPrio) && s.procs[pid].etat == ACTIVABLE && newPrio > Elu(s).prio && Preeminent(s)
    ensures Chprio(s, pid, newPrio, mot).s.elu == pid
  {
    hide Chprio, Inv, Devient, Preeminent;
    Sujet(s, pid);
    ChprioInv(s, pid, newPrio, mot);
    var s' := Chprio(s, pid, newPrio, mot).s;
    ChprioPreeminent(s, pid, newPrio, mot);
    ChprioEcrits(s, pid, newPrio, mot);
    PlusPrioritaire(s, pid, newPrio, s');
  }

  lemma PlusPrioritaire(s: Noyau, pid: int, newPrio: int, s': Noyau)
    requires Inv(s) && Inv(s') && Preeminent(s) && Preeminent(s') && pid in s.procs && s.procs[pid].etat == ACTIVABLE
    requires newPrio > Elu(s).prio && Devient(s.procs[pid := s.procs[pid].(prio := newPrio)], s')
    ensures s'.elu == pid
  {
    hide Inv, Preeminent, Devient;
    DevientSeul(s, pid, s.procs[pid].(prio := newPrio), s');
    EluMoindre(s, pid, s.procs[pid].(prio := newPrio), s');
    PretMoindre(s', pid);
  }

  lemma EluMoindre(s: Noyau, pid: int, rec: Processus, s': Noyau)
    requires Inv(s) && Inv(s') && Preeminent(s) && pid in s.procs && Devient(s.procs[pid := rec], s')
    ensures s'.elu in s'.procs && (s'.elu != pid ==> s'.procs[s'.elu].prio <= Elu(s).prio)
  {
    hide Tri, Files, Sems, Famille, Table;
    var e := s'.elu;
    if e != pid {
      assert s.procs[pid := rec][e] == s.procs[e];
      assert Actif(s.procs[e]);
      assert e == s.elu || e in Chaine(s, ProcActivables);
    }
  }

  lemma PretMoindre(s: Noyau, p: int)
    requires Inv(s) && Preeminent(s) && p in s.procs && Actif(s.procs[p])
    ensures s.elu in s.procs && s.procs[p].prio <= Elu(s).prio
  {
    hide Tri, Files, Sems, Famille, Table;
    assert p == s.elu || p in Chaine(s, ProcActivables);
  }

  // ----- kill -----------------------------------------------------------------------------------------

  /** Process `pid` of state `s` has been struck, and nobody reaped yet: it is out of its ring, a
      zombie or in the dying queue; a father that waits for a child is ready; nothing else. */
  ghost predicate Abattu(s: Noyau, pid: int, s2: Noyau)
    requires pid in s.procs
  {
    var p := s.procs[pid];
    && s2.procs.Keys == s.procs.Keys
    && s2.procs[pid] == (if p.pere != NULL then p.(etat := ZOMBIE, chainage := Libre) else p.(etat := MOURANT, chainage := Dans(ProcMourants)))
    && (forall x :: x in s.procs && x != pid ==>
          s2.procs[x] == if x == p.pere && s.procs[x].etat == ATTEND_FILS then Pret(s.procs[x]) else s.procs[x])
    && (forall r :: r != ProcActivables && r != ProcMourants ==> Chaine(s2, r) == Without(Chaine(s, r), pid))
    && (forall x :: x in Chaine(s2, ProcActivables) <==>
          x != pid && (x in Chaine(s, ProcActivables) || (x == p.pere && x in s.procs && s.procs[x].etat == ATTEND_FILS)))
    && (forall x :: x in Chaine(s2, ProcMourants) <==> x in Chaine(s, ProcMourants) || (x == pid && p.pere == NULL))
    && s2.elu == s.elu && s2.libres == s.libres && s2.files == s.files && s2.fidsLibres == s.fidsLibres
    && s2.sems == s.sems && s2.sidsLibres == s.sidsLibres
  }

  lemma AbattuFils(s: Noyau, pid: int)
    requires Inv(s) && KillValide(s, pid) && pid != s.elu && s.procs[pid].pere != NULL
    ensures Abattu(s, pid, Frappe(s, pid))
  {
    hide Detacher, Deplacer, Inv, Without, Vif, ReveilPere;
    var p := s.procs[pid];
    var rec := p.(etat := ZOMBIE);
    var s1 := Detacher(s, pid, rec);
    PereConnu(s);
    VictimeZombie(s, pid);
    DetacherEffet(s, pid, rec);
    DetacherTout(s, pid, rec);
    ListesSans(s, pid);
    HorsMourants(s, pid);
    PereReveille(s1, p.pere);
  }

  lemma HorsMourants(s: Noyau, pid: int)
    requires Inv(s) && pid in s.procs && Vif(s.procs[pid])
    ensures Without(Chaine(s, ProcMourants), pid) == Chaine(s, ProcMourants)
  {
    hide Tri, Files, Sems, Famille, Table;
    VifPasMourant(s, pid);
    HorsFile(s, pid, ProcMourants);
  }

  lemma VictimeZombie(s: Noyau, pid: int)
    requires Inv(s) && KillValide(s, pid) && pid != s.elu
    ensures Coherent(Detacher(s, pid, s.procs[pid].(etat := ZOMBIE))) && Chainages(s)
  {
    hide Detacher, Tri, Files, Sems, Trie;
    ZombieCoherent(s, pid, s.procs[pid].(etat := ZOMBIE));
  }

  /** Waking a father that waits for a child: it joins the ready queue, and nothing else changes. */
  lemma PereReveille(s: Noyau, pere: int)
    requires Coherent(s)
    ensures var s', attend := ReveilPere(s, pere), pere in s.procs && s.procs[pere].etat == ATTEND_FILS;
      && s'.procs == (if attend then s.procs[pere := Pret(s.procs[pere])] else s.procs)
      && (forall r :: r != ProcActivables ==> Chaine(s', r) == Chaine(s, r))
      && (forall x :: x in Chaine(s', ProcActivables) <==> x in Chaine(s, ProcActivables) || (attend && x == pere))
      && s'.elu == s.elu && s'.libres == s.libres && s'.files == s.files && s'.fidsLibres == s.fidsLibres
      && s'.sems == s.sems && s'.sidsLibres == s.sidsLibres
  {
    hide Deplacer, Tri, Files, Sems, Famille, Table;
    if pere in s.procs && s.procs[pere].etat == ATTEND_FILS {
      PereHors(s, pere);
      ReveilEffet(s, pere, s.procs[pere]);
    }
  }

  lemma PereHors(s: Noyau, pere: int)
    requires Coherent(s) && pere in s.procs && s.procs[pere].etat == ATTEND_FILS
    ensures s.procs[pere].chainage == Libre && forall r :: Without(Chaine(s, r), pere) == Chaine(s, r)
  {
    hide Tri, Files, Sems, Famille, Table;
    forall r ensures Without(Chaine(s, r), pere) == Chaine(s, r) { HorsFile(s, pere, r); }
  }

  lemma DetacherTout(s: Noyau, p: int, rec: Processus)
    requires p in s.procs
    ensures var s1 := Detacher(s, p, rec);
      && s1.elu == s.elu && s1.libres == s.libres && s1.files == s.files && s1.fidsLibres == s.fidsLibres
      && s1.sems == s.sems && s1.sidsLibres == s.sidsLibres
  {
  }

  lemma DeplacerTout(s: Noyau, p: int, rec: Processus, r: Anneau)
    requires p in s.procs
    ensures var s1 := Deplacer(s, p, rec, r);
      && s1.elu == s.elu && s1.libres == s.libres && s1.files == s.files && s1.fidsLibres == s.fidsLibres
      && s1.sems == s.sems && s1.sidsLibres == s.sidsLibres
  {
  }

  lemma ListesSans(s: Noyau, p: int)
    requires Chainages(s)
    ensures forall r, x {:trigger x in Without(Chaine(s, r), p)} :: x in Without(Chaine(s, r), p) <==> x in Chaine(s, r) && x != p
  {
    forall r, x {:trigger x in Without(Chaine(s, r), p)} ensures x in Without(Chaine(s, r), p) <==> x in Chaine(s, r) && x != p {
      WithoutElems(Chaine(s, r), p);
    }
  }

  lemma AbattuSeul(s: Noyau, pid: int)
    requires Inv(s) && KillValide(s, pid) && pid != s.elu && s.procs[pid].pere == NULL
    ensures Abattu(s, pid, Frappe(s, pid))
  {
    hide Deplacer, Tri, Files, Sems, Trie, Without;
    var rec := s.procs[pid].(etat := MOURANT);
    PereConnu(s);
    DeplacerEffet(s, pid, rec, ProcMourants);
    DeplacerTout(s, pid, rec, ProcMourants);
    ListesSans(s, pid);
    var q := Without(Chaine(s, ProcMourants), pid);
    InsertElems(q, Rang(s.procs, ProcMourants, q, rec), pid);
    VifPasMourant(s, pid);
    HorsFile(s, pid, ProcMourants);
  }

  /** kill of a living process other than the caller (one that waits for a child is in no queue,
      and stops the kernel): it answers 0, and the kernel is the one described by `Abattu`, reaped. */
  lemma KillEffet(s: Noyau, pid: int) returns (s2: Noyau)
    requires Inv(s) && KillValide(s, pid) && pid != s.elu && s.procs[pid].etat != ATTEND_FILS
    ensures var i := Kill(s, pid); i.Rend? && i.code == 0 && Inv(i.s) && Abattu(s, pid, s2) && Moissonne(s2, i.s)
  {
    hide Kill, Frappe, FreeMourantQueue, Abattu, Moissonne, Mort;
    s2 := Frappe(s, pid);
    KillPanique(s, pid);
    KillFrappe(s, pid);
    KillInv(s, pid);
    FrappeEffet(s, pid);
    MoissonInv(s2);
    if s.procs[pid].pere != NULL { AbattuFils(s, pid); } else { AbattuSeul(s, pid); }
  }

  /** The victim is doomed with it exactly when its father is, or when it has none. */
  lemma AbattuCondamne(s: Noyau, pid: int, s2: Noyau)
    requires Inv(s) && KillValide(s, pid) && pid != s.elu && Abattu(s, pid, s2)
    ensures Condamne(s2, pid) <==> s.procs[pid].pere == NULL || Condamne(s, s.procs[pid].pere)
  {
    hide Tri, Files, Sems, Famille, Table, Chainages;
    var pere := s.procs[pid].pere;
    if pere == NULL {
      assert CondamneEn(s2, pid, 0);
    } else {
      MemesMourants(s, pid, s2);
    }
  }

  lemma MemesMourants(s: Noyau, pid: int, s2: Noyau)
    requires Inv(s) && KillValide(s, pid) && pid != s.elu && Abattu(s, pid, s2) && s.procs[pid].pere != NULL
    ensures Condamne(s2, pid) <==> Condamne(s, s.procs[pid].pere)
  {
    hide Tri, Files, Sems, Famille, Table;
    var pere := s.procs[pid].pere;
    VifPasMourant(s, pid);
    if Condamne(s, pere) {
      var n: nat :| CondamneEn(s, pere, n);
      CondamneSansLui(s, s2, pid, pere, n);
      assert CondamneEn(s2, pid, n + 1);
    }
    if Condamne(s2, pid) {
      var n: nat :| CondamneEn(s2, pid, n);
      CondamneParLui(s, s2, pid, pid, n);
      VifSauf(s, pid);
    }
  }

  lemma VifSauf(s: Noyau, p: int)
    requires Inv(s) && p in s.procs && Vif(s.procs[p])
    ensures !Condamne(s, p)
  {
    if Condamne(s, p) {
      CondamneEtat(s, p);
      VifPasMourant(s, p);
      assert false;
    }
  }

  /** The fate of the victim, and of those around it.  With a father that is not itself about to
      be reaped, it is left behind as a zombie, in no queue, its exit value and its other fields
      kept; otherwise it is gone, and its pid is free again.  A father that waited for a child is
      ready.  Everybody else alive is untouched, except that a child may lose its father. */
  lemma KillTue(s: Noyau, pid: int)
    requires Inv(s) && KillValide(s, pid) && pid != s.elu && s.procs[pid].etat != ATTEND_FILS
    ensures var p, s' := s.procs[pid], Kill(s, pid).s;
      && (pid in s'.procs <==> p.pere != NULL && !Condamne(s, p.pere))
      && (pid in s'.procs ==> s'.procs[pid] == p.(etat := ZOMBIE, chainage := Libre))
      && (pid !in s'.procs ==> pid in s'.libres)
      && (p.pere in s.procs && s.procs[p.pere].etat == ATTEND_FILS ==>
            p.pere in Chaine(s', ProcActivables) && p.pere in s'.procs && s'.procs[p.pere].etat == ACTIVABLE)
      && (forall x :: x in s.procs && Vif(s.procs[x]) && x != pid && x != p.pere ==>
            && x in s'.procs && s'.procs[x] == s.procs[x].(pere := s'.procs[x].pere)
            && (s'.procs[x].pere == s.procs[x].pere || s'.procs[x].pere == NULL))
      && (forall r :: r != ProcActivables && r != ProcMourants ==> Chaine(s', r) == Without(Chaine(s, r), pid))
  {
    hide Kill, Inv, Abattu, Moissonne, Condamne;
    Sujet(s, s.elu);
    var s2 := KillEffet(s, pid);
    AbattuCondamne(s, pid, s2);
    KillVictime(s, pid, s2, Kill(s, pid).s);
    forall x | x in s.procs && Vif(s.procs[x]) && x != pid ensures x in Kill(s, pid).s.procs && Epargne(s, pid, x, Kill(s, pid).s) {
      KillAutre(s, pid, s2, x, Kill(s, pid).s);
    }
    KillPere(s, pid, s2, Kill(s, pid).s);
  }

  lemma KillVictime(s: Noyau, pid: int, s2: Noyau, s': Noyau)
    requires Inv(s) && Inv(s') && KillValide(s, pid) && Abattu(s, pid, s2) && Moissonne(s2, s')
    ensures pid in s'.procs <==> !Condamne(s2, pid)
    ensures pid in s'.procs && s.procs[pid].pere != NULL ==> s'.procs[pid] == s.procs[pid].(etat := ZOMBIE, chainage := Libre)
    ensures pid !in s'.procs ==> pid in s'.libres
    ensures forall r :: r != ProcActivables && r != ProcMourants ==> Chaine(s', r) == Without(Chaine(s, r), pid)
  {
    hide Tri, Files, Sems, Famille, Chainages, Etats;
    CondamneFils(s2, pid);
  }

  /** A zombie is doomed with its father. */
  lemma CondamneFils(s: Noyau, x: int)
    requires x in s.procs
    ensures s.procs[x].etat == ZOMBIE && Condamne(s, s.procs[x].pere) ==> Condamne(s, x)
    ensures Condamne(s, x) ==> x in Chaine(s, ProcMourants) || s.procs[x].etat == ZOMBIE
  {
    if s.procs[x].etat == ZOMBIE && Condamne(s, s.procs[x].pere) {
      var n: nat :| CondamneEn(s, s.procs[x].pere, n);
      assert CondamneEn(s, x, n + 1);
    }
  }

  /** What a death leaves of a process that is not its victim. */
  ghost predicate Epargne(s: Noyau, pid: int, x: int, s': Noyau)
    requires pid in s.procs && x in s.procs && x in s'.procs
  {
    var a := if x == s.procs[pid].pere && s.procs[x].etat == ATTEND_FILS then Pret(s.procs[x]) else s.procs[x];
    s'.procs[x] == a.(pere := s'.procs[x].pere) && (s'.procs[x].pere == a.pere || s'.procs[x].pere == NULL)
  }

  lemma KillAutre(s: Noyau, pid: int, s2: Noyau, x: int, s': Noyau)
    requires Inv(s) && KillValide(s, pid) && Abattu(s, pid, s2) && Moissonne(s2, s') && x in s.procs && Vif(s.procs[x]) && x != pid
    ensures x in s'.procs && Epargne(s, pid, x, s')
  {
    hide Tri, Files, Sems, Famille, Table;
    VifPasMourant(s, x);
    CondamneFils(s2, x);
  }

  lemma KillPere(s: Noyau, pid: int, s2: Noyau, s': Noyau)
    requires Inv(s) && KillValide(s, pid) && s.procs[pid].etat != ATTEND_FILS && Abattu(s, pid, s2) && Moissonne(s2, s')
    ensures var pere := s.procs[pid].pere;
      pere in s.procs && s.procs[pere].etat == ATTEND_FILS ==>
        pere in Chaine(s', ProcActivables) && pere in s'.procs && s'.procs[pere].etat == ACTIVABLE
  {
    hide Tri, Files, Sems, Table;
    var pere := s.procs[pid].pere;
    if pere in s.procs && s.procs[pere].etat == ATTEND_FILS {
      KillAutre(s, pid, s2, pere, s');
    }
  }

  // ----- exit, and kill of oneself --------------------------------------------------------------------

  lemma QuitterPresent(s: Noyau)
    requires Coherent(s) && DefuntsSansPere(s) && !Quitter(s).Panique?
    ensures s.elu in Quitter(s).s.procs
  {
    hide FreeMourantQueue, Ordonnanceur, Commutation, Tri, Files, Sems, Famille;
    QuitterInv(s);
    OrdonnanceurInv(s);
    MoissonCoherent(s);
    var s1 := FreeMourantQueue(s);
    MoissonHorsMourants(s1);
    CommutationInv(s1);
    CommutationCles(s1);
  }

  lemma CommutationCles(s: Noyau)
    requires s.elu in s.procs && (Chaine(s, ProcActivables) != [] ==> Elit(s, Commutation(s)))
    ensures Commutation(s).procs.Keys == s.procs.Keys
  {
    hide Elire, Remettre;
  }

  /** The process `p`, which was running, is dead and kept, its other fields being those of `rec`;
      a father that waited for a child, if it is to be woken, is ready or already running. */
  ghost predicate Decede(s: Noyau, p: int, rec: Processus, reveille: bool, s': Noyau) {
    && p in s'.procs && Inchange(rec.(etat := if rec.pere != NULL then ZOMBIE else MOURANT, chainage := Libre), s'.procs[p])
    && (reveille && rec.pere in s.procs && rec.pere != p && s.procs[rec.pere].etat == ATTEND_FILS ==>
          rec.pere in s'.procs && Actif(s'.procs[rec.pere]))
  }

  lemma DecedeDe(s: Noyau, p: int, rec: Processus, reveille: bool, s': Noyau)
    requires p in s.procs && p in s'.procs && Devient(Mort(s, p, rec, reveille), s') && NULL !in s.procs
    ensures Decede(s, p, rec, reveille, s')
  {
    var t := Mort(s, p, rec, reveille);
    assert t[p] == rec.(etat := if rec.pere != NULL then ZOMBIE else MOURANT, chainage := Libre);
    if reveille && rec.pere in s.procs && rec.pere != p && s.procs[rec.pere].etat == ATTEND_FILS {
      assert t[rec.pere] == Pret(s.procs[rec.pere]);
    }
  }

  /** exit, and kill of oneself: the caller is dead, a zombie if it has a father; exit leaves its
      argument behind and wakes a father that waits, kill leaves everything as it was and wakes
      nobody. */
  lemma MortDuCourant(s: Noyau, retval: int)
    requires Inv(s) && s.elu != IDLE
    ensures !Exit(s, retval).Panique? ==> Exit(s, retval).Suspend? && Decede(s, s.elu, Elu(s).(retval := retval), true, Exit(s, retval).s)
    ensures !Kill(s, s.elu).Panique? ==> Kill(s, s.elu).Suspend? && Decede(s, s.elu, Elu(s), false, Kill(s, s.elu).s)
  {
    hide Mourir, Quitter, Decede, Devient, Mort, Inv;
    SansAttente(s);
    PereConnu(s);
    var e := Elu(s).(retval := retval);
    ExitDeplie(s, retval);
    KillSoi(s);
    hide Exit, Kill;
    if !Exit(s, retval).Panique? { MortPresente(s, e, true); DecedeDe(s, s.elu, e, true, Exit(s, retval).s); }
    if !Kill(s, s.elu).Panique? { MortPresente(s, Elu(s), false); DecedeDe(s, s.elu, Elu(s), false, Kill(s, s.elu).s); }
  }

  lemma ExitDeplie(s: Noyau, retval: int)
    requires s.elu in s.procs
    ensures Exit(s, retval) == Quitter(Mourir(s, Elu(s).(retval := retval), true))
  {
    hide Quitter, Detacher;
  }

  lemma MortPresente(s: Noyau, e: Processus, reveille: bool)
    requires Inv(s) && s.elu != IDLE && e == Elu(s).(retval := e.retval) && !Quitter(Mourir(s, e, reveille)).Panique?
    ensures Quitter(Mourir(s, e, reveille)).Suspend? && s.elu in Quitter(Mourir(s, e, reveille)).s.procs
    ensures Devient(Mort(s, s.elu, e, reveille), Quitter(Mourir(s, e, reveille)).s)
  {
    hide Mourir, Quitter, Devient, Mort, Coherent, DefuntsSansPere;
    SansAttente(s);
    ParentFonde(s);
    MourirInv(s, e, reveille);
    QuitterInv(Mourir(s, e, reveille));
    QuitterPresent(Mourir(s, e, reveille));
    MourirEcrits(s, e, reveille);
  }

  lemma ParentFonde(s: Noyau)
    requires Inv(s)
    ensures AttenteFondee(Elu(s))
  {
  }

  // ----- New queues and semaphores --------------------------------------------------------------------

  /** pcreate answers -1 and changes nothing exactly when the capacity is out of range or all the
      identifiers are taken; otherwise it answers one that was not, whose queue has that capacity,
      no message and nobody waiting.  Nothing else changes. */
  lemma PcreateEffet(s: Noyau, maxMsg: int)
    requires Inv(s)
    ensures var i := Pcreate(s, maxMsg);
      if PcreateValide(s, maxMsg) then
        && i.Rend? && 0 <= i.code < NBQUEUE && i.code !in s.files
        && i.s.files == s.files[i.code := File(maxMsg, [])] && Chaine(i.s, AttenteFile(i.code)) == []
        && (forall r :: Chaine(i.s, r) == Chaine(s, r))
        && i.s == s.(files := i.s.files, fidsLibres := s.fidsLibres[1..]) && s.fidsLibres == [i.code] + i.s.fidsLibres
      else i == Rend(s, -1, 0)
  {
    hide Inv;
    IdentifiantsLibres(s);
    if PcreateValide(s, maxMsg) {
      var i := Pcreate(s, maxMsg);
      assert forall r :: Chaine(i.s, r) == Chaine(s, r);
      PersonneSans(s, i.code, i.code);
    }
  }

  /** Nobody waits on a queue or a semaphore that is not there. */
  lemma PersonneSans(s: Noyau, fid: int, sid: int)
    requires Inv(s)
    ensures fid !in s.files ==> Chaine(s, AttenteFile(fid)) == []
    ensures sid !in s.sems ==> Chaine(s, AttenteSem(sid)) == []
  {
    assert AttenteSaine(s, fid);
    var q := Chaine(s, AttenteFile(fid));
    if q != [] { assert q[0] in q; }
  }

  /** The same for screate, and what scount then says: the value given to screate or sreset. */
  lemma ScreateEffet(s: Noyau, count: int)
    requires Inv(s)
    ensures var i := Screate(s, count);
      if ScreateValide(s, count) then
        && i.Rend? && 0 <= i.code < NBSEM && i.code !in s.sems
        && i.s.sems == s.sems[i.code := count] && Chaine(i.s, AttenteSem(i.code)) == [] && (forall r :: Chaine(i.s, r) == Chaine(s, r))
        && i.s == s.(sems := i.s.sems, sidsLibres := s.sidsLibres[1..]) && s.sidsLibres == [i.code] + i.s.sidsLibres
        && Scount(i.s, i.code) == Rend(i.s, count, 0)
      else i == Rend(s, -1, 0)
  {
    hide Inv;
    IdentifiantsLibres(s);
    if ScreateValide(s, count) {
      var i := Screate(s, count);
      assert forall r :: Chaine(i.s, r) == Chaine(s, r);
      PersonneSans(s, i.code, i.code);
    }
  }

  lemma SresetEffet(s: Noyau, sid: int, count: int)
    requires Inv(s) && sid in s.sems && count >= 0
    ensures var i := Sreset(s, sid, count);
      && i.Rend? && i.code == 0 && i.s.sems == s.sems[sid := count] && Chaine(i.s, AttenteSem(sid)) == []
      && Scount(i.s, sid) == Rend(i.s, count, 0)
  {
    hide ReveillerListe, Inv, Coherent;
    ViderReste(s, AttenteSem(sid), -4);
    assert Chaine(Sreset(s, sid, count).s, AttenteSem(sid)) == Chaine(ReveillerListe(s, Chaine(s, AttenteSem(sid)), -4), AttenteSem(sid));
  }

  /** try_wait answers 0 and takes a unit exactly when there is one; otherwise it answers -3 (-2 at
      the smallest count) and changes nothing.  It never blocks. */
  lemma TryWaitEffet(s: Noyau, sid: int)
    requires Inv(s) && sid in s.sems
    ensures var i := TryWait(s, sid);
      && i.Rend? && (i.code == 0 <==> s.sems[sid] > 0)
      && (i.code == 0 ==> i.s == s.(sems := s.sems[sid := s.sems[sid] - 1]) && Unites(i.s, sid) == Unites(s, sid) - 1)
      && (i.code != 0 ==> i.s == s && i.code == if s.sems[sid] == SHORTINT_MIN then -2 else -3)
  {
    hide Tri, Chainages, Famille, Etats, Table;
    SemBornee(s, sid);
  }
}
