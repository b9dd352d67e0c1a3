/** What a step leaves alone in the processes it is not about: the fields through which a
    suspended call gets its answer, and the exit value of a dead child. */
module KernelFollow {
  import opened PriorityQueue
  import opened KernelState
  import opened KernelMoves
  import opened KernelReap
  import opened KernelSched
  import opened KernelWake
  import opened KernelFiles
  import opened KernelSem
  import opened KernelStart
  import opened KernelDeath
  import opened KernelClock

  predicate Vif(p: Processus) {
    p.etat != ZOMBIE && p.etat != MOURANT
  }

  /** Running or ready: a switch may turn the one into the other. */
  predicate Actif(p: Processus) {
    p.etat == ELU || p.etat == ACTIVABLE
  }

  /** A process may be switched to or from, a dead one may be handed over to the reaper, and a
      father may be lost; a process that waits stays in its queue, and no other field differs. */
  predicate Inchange(a: Processus, b: Processus) {
    && b == a.(etat := b.etat, chainage := b.chainage, pere := b.pere)
    && (b.pere == a.pere || b.pere == NULL)
    && if Actif(a) then Actif(b)
       else if Vif(a) then b.etat == a.etat && b.chainage == a.chainage
       else !Vif(b) && (b.etat == ZOMBIE ==> a.etat == ZOMBIE)
  }

  /** A step about the processes of `sauf`: outside it nobody appears, nobody alive disappears, and
      nobody changes. */
  ghost predicate Suivi(s: Noyau, s': Noyau, sauf: set<int>) {
    && (forall p {:trigger s'.procs[p]} {:trigger p in s'.procs} :: p in s'.procs && p !in sauf ==> p in s.procs && Inchange(s.procs[p], s'.procs[p]))
    && (forall p {:trigger s.procs[p]} {:trigger p in s.procs} :: p in s.procs && p !in sauf && Vif(s.procs[p]) ==> p in s'.procs)
  }

  lemma SuiviPuis(s: Noyau, s1: Noyau, s2: Noyau, a: set<int>, b: set<int>)
    requires Suivi(s, s1, a) && Suivi(s1, s2, b)
    ensures Suivi(s, s2, a + b)
  {
  }

  lemma SuiviMaj(s: Noyau, s': Noyau, p: int, rec: Processus)
    requires p in s.procs && s'.procs == s.procs[p := rec]
    ensures Suivi(s, s', {p}) && (Inchange(s.procs[p], rec) ==> Suivi(s, s', {}))
  {
  }

  lemma VifPasMourant(s: Noyau, p: int)
    requires Coherent(s) && p in s.procs && Vif(s.procs[p])
    ensures s.procs[p].chainage != Dans(ProcMourants)
  {
  }

  lemma SuiviMoisson(s: Noyau)
    requires Coherent(s)
    ensures Suivi(s, FreeMourantQueue(s), {})
  {
    hide FreeMourantQueue, Tri, Files, Sems, Moissonnable, Condamne;
    CoherentMoissonnable(s);
    var morts := FreeMourantQueueExact(s);
    forall p | p in s.procs && Vif(s.procs[p]) ensures p in FreeMourantQueue(s).procs {
      VifPasMourant(s, p);
      if Condamne(s, p) { CondamneEtat(s, p); assert false; }
    }
  }

  lemma SuiviElit(s: Noyau, s': Noyau)
    requires Elit(s, s') && s.procs[s'.elu].etat == (if s'.elu == s.elu then ELU else ACTIVABLE)
    ensures Suivi(s, s', {})
  {
  }

  lemma SuiviCommutation(s: Noyau)
    requires Coherent(s) && DefuntsSansPere(s) && Chaine(s, ProcMourants) == []
    ensures Suivi(s, Commutation(s), {})
  {
    MoissonHorsMourants(s);
    if Chaine(s, ProcActivables) != [] {
      hide Commutation;
      CommutationInv(s);
      var s' := Commutation(s);
      TeteOuElu(s);
      SuiviElit(s, s');
    }
  }

  lemma TeteOuElu(s: Noyau)
    requires Coherent(s) && Chaine(s, ProcActivables) != []
    ensures var n := FilePrete(s)[0];
      && n in s.procs
      && (if n == s.elu then s.procs[n].etat == ELU else s.procs[n].etat == ACTIVABLE)
  {
    var q := Chaine(s, ProcActivables);
    assert q[0] in q;
    var k := FilePrete(s)[0];
    assert k == s.elu || k == q[0];
  }

  lemma SuiviOrdonnanceur(s: Noyau)
    requires Coherent(s) && DefuntsSansPere(s) && !Condamne(s, s.elu)
    ensures Suivi(s, Ordonnanceur(s), {})
  {
    hide Ordonnanceur, Commutation, FreeMourantQueue;
    OrdonnanceurInv(s);
    MoissonCoherent(s);
    SuiviMoisson(s);
    SuiviCommutation(FreeMourantQueue(s));
    SuiviPuis(s, FreeMourantQueue(s), Ordonnanceur(s), {}, {});
  }

  lemma SuiviFinir(s: Noyau, s1: Noyau, commute: bool, sauf: set<int>)
    requires Suivi(s, s1, sauf)
    requires Coherent(s1) && DefuntsSansPere(s1) && s1.procs[s1.elu].etat == ELU
    ensures Suivi(s, Finir(s1, commute), sauf)
  {
    hide Ordonnanceur;
    if commute {
      EluSauf(s1);
      SuiviOrdonnanceur(s1);
      SuiviPuis(s, s1, Ordonnanceur(s1), sauf, {});
      assert sauf + {} == sauf;
    }
  }

  lemma SuiviReveilFinir(s: Noyau, s0: Noyau, p: int, rec: Processus, commute: bool, sauf: set<int>)
    requires Suivi(s, s0, sauf)
    requires Coherent(s0) && DefuntsSansPere(s0) && s0.procs[s0.elu].etat == ELU
    requires p in s0.procs && p != s0.elu && EnAttente(s0.procs[p].etat)
    requires rec.prio == s0.procs[p].prio && rec.pere == s0.procs[p].pere && rec.fils == s0.procs[p].fils && AttenteFondee(rec)
    ensures var s' := Finir(Reveil(s0, p, rec), commute);
      Suivi(s, s', sauf + {p}) && p in s'.procs && Inchange(rec.(etat := ACTIVABLE), s'.procs[p])
  {
    hide Finir, Reveil;
    ReveilCoherent(s0, p, rec);
    var s1 := Reveil(s0, p, rec);
    SuiviMaj(s0, s1, p, s1.procs[p]);
    SuiviPuis(s, s0, s1, sauf, {p});
    SuiviFinir(s1, s1, commute, {});
    SuiviFinir(s, s1, commute, sauf + {p});
  }

  /** The caller blocks. */
  lemma SuiviSuspendre(s: Noyau, rec: Processus, r: Anneau)
    requires Inv(s) && s.elu != IDLE
    requires rec.prio == Elu(s).prio && rec.pere == Elu(s).pere && rec.fils == Elu(s).fils && AttenteFondee(rec)
    requires EnAttente(rec.etat) && Accord(rec.(chainage := Dans(r))) && Admis(s, rec, r)
    ensures var s' := Ordonnanceur(Deplacer(s, s.elu, rec, r));
      Suivi(s, s', {s.elu}) && s.elu in s'.procs && Inchange(rec.(chainage := Dans(r)), s'.procs[s.elu])
  {
    hide Ordonnanceur, Deplacer, Admis, Tri, Famille, Files, Sems;
    var s1 := Deplacer(s, s.elu, rec, r);
    DeplacerCoherent(s, s.elu, rec, r);
    DeplacerEffet(s, s.elu, rec, r);
    DeplacerElu(s, s.elu, rec, r);
    SuiviMaj(s, s1, s.elu, rec.(chainage := Dans(r)));
    EluSauf(s1);
    SuiviOrdonnanceur(s1);
    SuiviPuis(s, s1, Ordonnanceur(s1), {s.elu}, {});
    assert {s.elu} + {} == {s.elu};
  }

  // ----- Message queues -----------------------------------------------------------------------

  /** Blocked in psend or preceive on `fid`, with `v` in its message field. */
  predicate Bloque(p: Processus, suite: Suite, fid: int, v: int) {
    p.etat == ATTEND_FILE && p.suite == suite && p.fid == fid && p.fileValue == v && p.operationStatus == 1
  }

  /** Released from psend or preceive, with its answer. */
  predicate Servi(p: Processus, suite: Suite, v: int, status: int) {
    Vif(p) && p.etat != ATTEND_FILE && p.suite == suite && p.fileValue == v && p.operationStatus == status
  }

  /** The process released by the next call on `fid` that finds the queue as `vide` says. */
  function Premier(s: Noyau, fid: int, vide: bool): set<int> {
    var q := Chaine(s, AttenteFile(fid));
    if fid in s.files && q != [] && (vide <==> s.files[fid].queueMsg == []) then {q[0]} else {}
  }

  lemma ServiDe(rec: Processus, y: Processus)
    requires Inchange(rec.(etat := ACTIVABLE), y)
    ensures Servi(y, rec.suite, rec.fileValue, rec.operationStatus)
  {
  }

  lemma BloqueDe(rec: Processus, r: Anneau, y: Processus)
    requires rec.etat == ATTEND_FILE && rec.operationStatus == 1 && Inchange(rec.(chainage := Dans(r)), y)
    ensures Bloque(y, rec.suite, rec.fid, rec.fileValue)
  {
  }

  lemma RecepteurSuivi(s: Noyau, fid: int, m: int)
    requires Inv(s) && fid in s.files && s.files[fid].queueMsg == [] && Chaine(s, AttenteFile(fid)) != []
    ensures var x := Chaine(s, AttenteFile(fid))[0];
      && x in s.procs && x != s.elu && Bloque1(s.procs[x], DansPreceive, fid)
      && var p, rec := s.procs[x], Elu(s).(fileValue := m, operationStatus := 1);
         var s' := Finir(Reveil(Maj(s, s.elu, rec), x, p.(fid := -1, fileValue := m, operationStatus := 1)), p.prio > Elu(s).prio);
         Suivi(s, s', {s.elu, x}) && x in s'.procs && Servi(s'.procs[x], DansPreceive, m, 1)
  {
    hide Reveil, Finir, Suivi, Tri, Table, Inchange, Servi;
    TeteEnAttente(s, fid);
    var x, rec := Chaine(s, AttenteFile(fid))[0], Elu(s).(fileValue := m, operationStatus := 1);
    var p, s0 := s.procs[x], Maj(s, s.elu, rec);
    var p2 := p.(fid := -1, fileValue := m, operationStatus := 1);
    MajEluInv(s, rec);
    SuiviMaj(s, s0, s.elu, rec);
    SuiviReveilFinir(s, s0, x, p2, p.prio > Elu(s).prio, {s.elu});
    ServiDe(p2, Finir(Reveil(s0, x, p2), p.prio > Elu(s).prio).procs[x]);
    assert {s.elu} + {x} == {s.elu, x};
  }

  lemma PsendSuivi(s: Noyau, fid: int, m: int)
    requires Inv(s) && s.elu != IDLE && fid in s.files
    ensures var i := Psend(s, fid, m);
      && !i.Panique? && Suivi(s, i.s, {s.elu} + Premier(s, fid, true))
      && (forall p :: p in Premier(s, fid, true) ==>
            && p != s.elu && p in s.procs && Bloque1(s.procs[p], DansPreceive, fid)
            && p in i.s.procs && Servi(i.s.procs[p], DansPreceive, m, 1))
      && (i.Suspend? ==> s.elu in i.s.procs && Bloque(i.s.procs[s.elu], DansPsend, fid, m))
      && (i.Rend? ==> i.code == 0)
  {
    hide Reveil, Finir, Ordonnanceur, Deplacer, Suivi, Tri, Trie, Table, Inchange, Servi, Bloque;
    var f, q := s.files[fid], Chaine(s, AttenteFile(fid));
    if q != [] { TeteEnAttente(s, fid); }
    if (f.queueMsg != [] || q == []) && |f.queueMsg| == f.maxMsg {
      var rec := Elu(s).(etat := ATTEND_FILE, fid := fid, fileValue := m, operationStatus := 1, suite := DansPsend);
      SuiviSuspendre(s, rec, AttenteFile(fid));
      BloqueDe(rec, AttenteFile(fid), Psend(s, fid, m).s.procs[s.elu]);
    } else if f.queueMsg == [] && q != [] {
      RecepteurSuivi(s, fid, m);
      assert {s.elu} + Premier(s, fid, true) == {s.elu, q[0]};
    } else {
      var rec := Elu(s).(fileValue := m, operationStatus := 1);
      SuiviMaj(s, MajFile(Maj(s, s.elu, rec), fid, f.queueMsg + [m]), s.elu, rec);
    }
    assert {s.elu} + {} == {s.elu};
  }

  predicate Bloque1(p: Processus, suite: Suite, fid: int) {
    p.etat == ATTEND_FILE && p.suite == suite && p.fid == fid
  }

  lemma PreceiveSuivi(s: Noyau, fid: int)
    requires Inv(s) && s.elu != IDLE && fid in s.files
    ensures var i := Preceive(s, fid);
      && !i.Panique? && Suivi(s, i.s, {s.elu} + Premier(s, fid, false))
      && (forall p :: p in Premier(s, fid, false) ==>
            && p != s.elu && p in s.procs && Bloque1(s.procs[p], DansPsend, fid)
            && p in i.s.procs && Servi(i.s.procs[p], DansPsend, s.procs[p].fileValue, 1))
      && (i.Suspend? ==> s.elu in i.s.procs && Bloque(i.s.procs[s.elu], DansPreceive, fid, -1))
      && (i.Rend? ==> i.code == 0)
  {
    hide Reveil, Finir, Ordonnanceur, Deplacer, Suivi, Tri, Table;
    var f, q := s.files[fid], Chaine(s, AttenteFile(fid));
    if f.queueMsg == [] {
      SuiviSuspendre(s, Elu(s).(etat := ATTEND_FILE, fid := fid, fileValue := -1, operationStatus := 1, suite := DansPreceive),
                     AttenteFile(fid));
    } else {
      var rec := Elu(s).(fileValue := -1, operationStatus := 1);
      if q != [] {
        EmetteurSuivi(s, fid, rec);
        assert {s.elu} + Premier(s, fid, false) == {s.elu, q[0]};
      } else {
        SuiviMaj(s, MajFile(Maj(s, s.elu, rec), fid, f.queueMsg[1..]), s.elu, rec);
      }
    }
    assert {s.elu} + {} == {s.elu};
  }

  lemma EmetteurSuivi(s: Noyau, fid: int, rec: Processus)
    requires Inv(s) && fid in s.files && s.files[fid].queueMsg != [] && Chaine(s, AttenteFile(fid)) != []
    requires rec == Elu(s).(fileValue := -1, operationStatus := 1)
    ensures var x := Chaine(s, AttenteFile(fid))[0];
      && x in s.procs && x != s.elu && Bloque1(s.procs[x], DansPsend, fid)
      && var p, f := s.procs[x], s.files[fid];
         var s1 := MajFile(Maj(s, s.elu, rec), fid, f.queueMsg[1..] + [p.fileValue]);
         var s' := Finir(Reveil(s1, x, p.(fid := -1, operationStatus := 1)), p.prio > Elu(s).prio);
         Suivi(s, s', {s.elu, x}) && x in s'.procs && Servi(s'.procs[x], DansPsend, p.fileValue, 1)
  {
    hide Reveil, Finir, Suivi, Tri, Table, Inchange, Servi;
    TeteEnAttente(s, fid);
    var x, f := Chaine(s, AttenteFile(fid))[0], s.files[fid];
    var p, s0 := s.procs[x], Maj(s, s.elu, rec);
    var p2 := p.(fid := -1, operationStatus := 1);
    var msgs := f.queueMsg[1..] + [p.fileValue];
    MajEluInv(s, rec);
    MajFileInv(s0, fid, msgs);
    SuiviMaj(s, MajFile(s0, fid, msgs), s.elu, rec);
    SuiviReveilFinir(s, MajFile(s0, fid, msgs), x, p2, p.prio > Elu(s).prio, {s.elu});
    ServiDe(p2, Finir(Reveil(MajFile(s0, fid, msgs), x, p2), p.prio > Elu(s).prio).procs[x]);
    assert {s.elu} + {x} == {s.elu, x};
  }

  ghost function Membres(q: seq<int>): set<int> {
    set p | p in q
  }

  lemma SuiviVidee(s: Noyau, r: Anneau, status: int, s': Noyau)
    requires Videe(s, r, status, s')
    ensures Suivi(s, s', Membres(Chaine(s, r)))
  {
  }

  /** Everybody who waited on `fid` has failed. */
  ghost predicate Rejetes(s: Noyau, fid: int, s': Noyau) {
    forall p :: p in Chaine(s, AttenteFile(fid)) ==>
      && p in s.procs && s.procs[p].etat == ATTEND_FILE && s.procs[p].fid == fid
      && p in s'.procs && Servi(s'.procs[p], s.procs[p].suite, s.procs[p].fileValue, 0)
  }

  lemma RejetesFinir(s: Noyau, fid: int, s1: Noyau, s2: Noyau, commute: bool)
    requires Inv(s) && Videe(s, AttenteFile(fid), 0, s1) && s2.procs == s1.procs
    requires Coherent(s2) && DefuntsSansPere(s2) && s2.procs[s2.elu].etat == ELU
    ensures Rejetes(s, fid, Finir(s2, commute)) && Suivi(s, Finir(s2, commute), Membres(Chaine(s, AttenteFile(fid))))
  {
    hide Finir, Tri, Files, Sems, Table, Famille;
    SuiviVidee(s, AttenteFile(fid), 0, s1);
    SuiviFinir(s, s2, commute, Membres(Chaine(s, AttenteFile(fid))));
    SuiviFinir(s2, s2, commute, {});
    var s' := Finir(s2, commute);
    forall p | p in Chaine(s, AttenteFile(fid))
      ensures p in s.procs && s.procs[p].etat == ATTEND_FILE && s.procs[p].fid == fid
      ensures p in s'.procs && Servi(s'.procs[p], s.procs[p].suite, s.procs[p].fileValue, 0)
    {
      assert Accord(s.procs[p]);
      assert Vif(s2.procs[p]);
      assert Inchange(s2.procs[p], s'.procs[p]);
    }
  }

  lemma PresetSuivi(s: Noyau, fid: int)
    requires Inv(s) && fid in s.files
    ensures var i := Preset(s, fid); i.Rend? && Rejetes(s, fid, i.s) && Suivi(s, i.s, Membres(Chaine(s, AttenteFile(fid))))
  {
    hide ReveillerListe, Finir, Videe, Rejetes, Suivi;
    var r := AttenteFile(fid);
    var s1 := ReveillerListe(s, Chaine(s, r), 0);
    VideeElu(s, r, 0);
    MajFileInv(s1, fid, []);
    RejetesFinir(s, fid, s1, MajFile(s1, fid, []), Depasse(s, Chaine(s, r), Elu(s).prio));
  }

  lemma VideeElu(s: Noyau, r: Anneau, status: int)
    requires Inv(s) && FileDAttente(r)
    ensures var s1 := ReveillerListe(s, Chaine(s, r), status);
      Coherent(s1) && DefuntsSansPere(s1) && Videe(s, r, status, s1) && Chaine(s1, r) == [] && s1.elu == s.elu && s1.files == s.files
      && s1.procs[s1.elu].etat == ELU
  {
    hide ReveillerListe;
    ReveillerListeEffet(s, r, status);
  }

  lemma PdeleteSuivi(s: Noyau, fid: int)
    requires Inv(s) && fid in s.files
    ensures var i := Pdelete(s, fid); i.Rend? && Rejetes(s, fid, i.s) && Suivi(s, i.s, Membres(Chaine(s, AttenteFile(fid))))
  {
    hide ReveillerListe, Finir, Videe, Rejetes, Suivi;
    var r := AttenteFile(fid);
    var s1 := ReveillerListe(s, Chaine(s, r), 0);
    VideeElu(s, r, 0);
    RetireeCoherent(s1, fid);
    RejetesFinir(s, fid, s1, Retiree(s1, fid), Depasse(s, Chaine(s, r), Elu(s).prio));
  }

  // ----- Semaphores -----------------------------------------------------------------------------

  ghost function SurSem(s: Noyau): set<int> {
    set p | p in s.procs && s.procs[p].etat == ATTEND_SEMAPHORE
  }

  lemma SuiviPlus(s: Noyau, s': Noyau, a: set<int>, b: set<int>)
    requires Suivi(s, s', a) && a <= b
    ensures Suivi(s, s', b)
  {
  }

  lemma MembresSem(s: Noyau, k: int)
    requires Chainages(s) && Etats(s) && s.procs[s.elu].etat == ELU
    ensures Membres(Chaine(s, AttenteSem(k))) <= SurSem(s)
  {
    forall p | p in Membres(Chaine(s, AttenteSem(k))) ensures p in SurSem(s) {
      assert p in Chaine(s, AttenteSem(k));
    }
  }

  lemma SviderSuivi(s: Noyau, sid: int, status: int, s': Noyau)
    requires Inv(s) && s'.procs == ReveillerListe(s, Chaine(s, AttenteSem(sid)), status).procs
    ensures Suivi(s, s', SurSem(s))
  {
    hide ReveillerListe, Suivi;
    var r := AttenteSem(sid);
    var s1 := ReveillerListe(s, Chaine(s, r), status);
    VideeElu(s, r, status);
    SuiviVidee(s, r, status, s1);
    MembresSem(s, sid);
    SuiviPlus(s, s1, Membres(Chaine(s, r)), SurSem(s));
    SuiviMemesProcs(s, s1, s', SurSem(s));
  }

  lemma SuiviMemesProcs(s: Noyau, s1: Noyau, s': Noyau, sauf: set<int>)
    requires Suivi(s, s1, sauf) && s'.procs == s1.procs
    ensures Suivi(s, s', sauf)
  {
  }

  lemma SuiviRien(s: Noyau, s': Noyau, sauf: set<int>)
    requires s'.procs == s.procs
    ensures Suivi(s, s', sauf)
  {
  }

  lemma SdeleteSuivi(s: Noyau, sid: int)
    requires Inv(s)
    ensures Suivi(s, Sdelete(s, sid).s, SurSem(s))
  {
    hide ReveillerListe, Suivi, SurSem;
    if sid in s.sems {
      SviderSuivi(s, sid, -3, Sdelete(s, sid).s);
    } else {
      SuiviRien(s, s, SurSem(s));
    }
  }

  lemma SresetSuivi(s: Noyau, sid: int, count: int)
    requires Inv(s)
    ensures Suivi(s, Sreset(s, sid, count).s, SurSem(s))
  {
    hide ReveillerListe, Suivi, SurSem;
    if sid in s.sems && count >= 0 {
      SviderSuivi(s, sid, -4, Sreset(s, sid, count).s);
    } else {
      SuiviRien(s, s, SurSem(s));
    }
  }

  lemma SignalSuivi(s: Noyau, sid: int)
    requires Inv(s) && !Signal(s, sid).Panique?
    ensures Suivi(s, Signal(s, sid).s, SurSem(s)) && SurSem(Signal(s, sid).s) <= SurSem(s)
  {
    hide Reveil, SignalTete;
    if sid in s.sems && s.sems[sid] < 0 {
      SignalTeteEffet(s, sid);
      SignalDeplie(s, sid);
      MembresSem(s, sid);
    } else {
      SuiviRien(s, Signal(s, sid).s, SurSem(s));
    }
  }

  lemma {:induction false} SignauxSuivi(s: Noyau, sid: int, n: int)
    requires Inv(s) && !Signaux(s, sid, n).Panique?
    ensures Suivi(s, Signaux(s, sid, n).s, SurSem(s))
    decreases n
  {
    hide Signal, Suivi, SurSem;
    if n > 0 && Signal(s, sid).Rend? {
      var s1 := Signal(s, sid).s;
      SignalInv(s, sid);
      SignalSuivi(s, sid);
      SignauxSuivi(s1, sid, n - 1);
      SuiviPuis(s, s1, Signaux(s, sid, n).s, SurSem(s), SurSem(s1));
      assert SurSem(s) + SurSem(s1) == SurSem(s);
    } else {
      SuiviRien(s, s, SurSem(s));
    }
  }

  lemma WaitSuivi(s: Noyau, sid: int)
    requires Inv(s) && s.elu != IDLE
    ensures !Wait(s, sid).Panique? && Suivi(s, Wait(s, sid).s, {s.elu})
  {
    hide Ordonnanceur, Deplacer, Suivi, Inv, Coherent, MajSem, Admis, Accord, AttenteFondee;
    SuiviRien(s, s, {s.elu});
    if sid in s.sems && s.sems[sid] > SHORTINT_MIN {
      var s1 := MajSem(s, sid, s.sems[sid] - 1);
      WaitEnAttente(s, sid);
      SuiviRien(s, s1, {s.elu});
      if s.sems[sid] - 1 < 0 {
        SuiviSuspendre(s1, Elu(s).(etat := ATTEND_SEMAPHORE, suite := DansWait), AttenteSem(sid));
        SuiviPuis(s, s1, Wait(s, sid).s, {s.elu}, {s.elu});
        assert {s.elu} + {s.elu} == {s.elu};
      }
    }
  }

  // ----- Processes --------------------------------------------------------------------------------

  lemma StartSuivi(s: Noyau, prio: int, alloue: bool)
    requires Inv(s)
    ensures var i := Start(s, prio, alloue);
      i.Rend? && Suivi(s, i.s, {i.code, s.elu}) && (i.code >= 0 ==> i.code !in s.procs)
  {
    hide Inscrit, QueueAdd, Finir, Suivi;
    if s.libres != [] && 0 < prio <= PRIO_MAX && alloue {
      assert s.libres[0] in s.libres;
      var s2 := NouveauPret(s, prio);
      NouveauSuivi(s, prio);
      SuiviFinir(s, s2, prio > Elu(s).prio, {s.libres[0], s.elu});
    } else {
      SuiviRien(s, s, {-1, s.elu});
    }
  }

  lemma NouveauSuivi(s: Noyau, prio: int)
    requires Inv(s) && s.libres != []
    ensures Suivi(s, QueueAdd(Inscrit(s, Nouveau(s, prio, ACTIVABLE)), ProcActivables, s.libres[0]), {s.libres[0], s.elu})
  {
    hide Tri, Famille, Files, Sems, Trie;
    assert s.libres[0] in s.libres;
  }

  lemma ChprioSuivi(s: Noyau, pid: int, newPrio: int, mot: int)
    requires Inv(s)
    ensures Suivi(s, Chprio(s, pid, newPrio, mot).s, {pid})
  {
    hide Deplacer, Finir, Suivi;
    SuiviRien(s, s, {pid});
    if 0 < pid < MAX_PROCESS && 0 < newPrio <= PRIO_MAX && pid in s.procs && s.procs[pid].etat != ZOMBIE {
      var rec := s.procs[pid].(prio := newPrio);
      if pid == s.elu {
        MajPrioCoherent(s, pid, newPrio);
        SuiviMaj(s, Maj(s, pid, rec), pid, rec);
        SuiviFinir(s, Maj(s, pid, rec), newPrio < mot, {pid});
      } else if s.procs[pid].etat == ACTIVABLE || s.procs[pid].etat == ATTEND_FILE {
        var r := s.procs[pid].chainage.anneau;
        ReplacerCoherent(s, pid, newPrio, r);
        SuiviMaj(s, Deplacer(s, pid, rec, r), pid, rec);
        SuiviFinir(s, Deplacer(s, pid, rec, r), Elu(s).prio < newPrio, {pid});
      } else {
        SuiviMaj(s, Maj(s, pid, rec), pid, rec);
      }
    }
  }

  lemma SuspensionsSuivi(s: Noyau, ticks: int)
    requires Inv(s) && s.elu != IDLE
    ensures Suivi(s, WaitClock(s, ticks).s, {s.elu}) && Suivi(s, ConsReadBloque(s).s, {s.elu})
  {
    hide Ordonnanceur, Deplacer, Suivi;
    SuiviSuspendre(s, Elu(s).(etat := ENDORMI, secReveille := ticks, suite := Utilisateur), ProcEndormis);
    SuiviSuspendre(s, Elu(s).(etat := ATTEND_ES, suite := DansConsRead), ProcBloqueEs);
  }

  /** The sleepers whose time has come. */
  ghost function Dus(s: Noyau, ticks: int): set<int> {
    set p | p in s.procs && s.procs[p].etat == ENDORMI && s.procs[p].secReveille <= ticks
  }

  lemma VerifieReveilleSuivi(s: Noyau, ticks: int)
    requires Inv(s)
    ensures Suivi(s, VerifieReveille(s, ticks), Dus(s, ticks))
  {
    hide Finir, Eveiller, Restants, Suivi, Dus;
    var q := Chaine(s, ProcEndormis);
    var m := Restants(s.procs, q, ticks);
    EveillerEffet(s, m);
    VerifieReveilleExact(s, ticks);
    EveillesSuivi(s, m, Eveiller(s, q, m), ticks);
    SuiviFinir(s, Eveiller(s, q, m), Depasse(s, q[m..], Elu(s).prio), Dus(s, ticks));
  }

  lemma EveillesSuivi(s: Noyau, m: nat, s': Noyau, ticks: int)
    requires Eveilles(s, m, s') && Chainages(s) && Etats(s) && s.procs[s.elu].etat == ELU
    requires var q := Chaine(s, ProcEndormis);
      forall p :: p in q ==> p in s.procs && (p in q[..m] <==> s.procs[p].secReveille > ticks)
    ensures Suivi(s, s', Dus(s, ticks)) && s'.procs[s'.elu].etat == ELU
  {
  }

  /** The process the keyboard wakes. */
  ghost function PremierEs(s: Noyau): set<int> {
    var q := Chaine(s, ProcBloqueEs);
    if q == [] then {} else {q[0]}
  }

  lemma VerifieEsSuivi(s: Noyau)
    requires Inv(s)
    ensures Suivi(s, VerifieEs(s), PremierEs(s))
  {
    hide Finir, Reveil, Tri, Files, Sems, Trie, Famille, Table;
    var q := Chaine(s, ProcBloqueEs);
    if q == [] {
      SuiviRien(s, s, {});
    } else {
      assert q[0] in q;
      ReveilCoherent(s, q[0], s.procs[q[0]]);
      var s1 := Reveil(s, q[0], s.procs[q[0]]);
      SuiviMaj(s, s1, q[0], s1.procs[q[0]]);
      SuiviFinir(s, s1, Elu(s).prio > s.procs[q[0]].prio, {q[0]});
    }
  }

  // ----- Deaths -------------------------------------------------------------------------------------

  /** The father a death wakes. */
  ghost function PereEnAttente(s: Noyau, pere: int): set<int> {
    if pere in s.procs && s.procs[pere].etat == ATTEND_FILS then {pere} else {}
  }

  lemma ReveilPereSuivi(s: Noyau, pere: int)
    requires Coherent(s) && DefuntsSansPere(s) && (pere in s.procs && pere == s.elu ==> s.procs[pere].etat != ATTEND_FILS)
    ensures Suivi(s, ReveilPere(s, pere), PereEnAttente(s, pere))
  {
    hide ReveilPere;
    ReveilPereCoherent(s, pere);
  }

  lemma MourirSuivi(s: Noyau, e: Processus, reveille: bool)
    requires Inv(s) && s.elu != IDLE && e.prio == Elu(s).prio && e.pere == Elu(s).pere && e.fils == Elu(s).fils && AttenteFondee(e)
    ensures Suivi(s, Mourir(s, e, reveille), {s.elu} + PereEnAttente(s, e.pere))
  {
    hide Detacher, ReveilPere, Suivi;
    var rec := e.(etat := if e.pere != NULL then ZOMBIE else MOURANT);
    var s1 := Detacher(s, s.elu, rec);
    DetacherEffet(s, s.elu, rec);
    SuiviMaj(s, s1, s.elu, s1.procs[s.elu]);
    var sauf := {s.elu} + PereEnAttente(s, e.pere);
    SuiviPlus(s, s1, {s.elu}, sauf);
    if reveille && e.pere != NULL {
      ZombieCoherent(s, s.elu, rec);
      ReveilPereSuivi(s1, e.pere);
      SuiviPuis(s, s1, ReveilPere(s1, e.pere), {s.elu}, PereEnAttente(s1, e.pere));
      SuiviPlus(s, ReveilPere(s1, e.pere), {s.elu} + PereEnAttente(s1, e.pere), sauf);
    }
  }

  lemma QuitterSuivi(s: Noyau)
    requires Coherent(s) && DefuntsSansPere(s) && !Quitter(s).Panique?
    ensures Suivi(s, Quitter(s).s, {})
  {
    hide Ordonnanceur, FreeMourantQueue;
    QuitterInv(s);
    SuiviOrdonnanceur(s);
  }

  lemma ExitSuivi(s: Noyau, retval: int)
    requires Inv(s) && s.elu != IDLE && !Exit(s, retval).Panique?
    ensures Suivi(s, Exit(s, retval).s, {s.elu} + PereEnAttente(s, Elu(s).pere))
  {
    var e := Elu(s).(retval := retval);
    assert Exit(s, retval) == Quitter(Mourir(s, e, true));
    hide Mourir, Quitter, Exit, Suivi;
    MourirInv(s, e, true);
    MourirSuivi(s, e, true);
    QuitterSuivi(Mourir(s, e, true));
    var sauf := {s.elu} + PereEnAttente(s, Elu(s).pere);
    SuiviPuis(s, Mourir(s, e, true), Exit(s, retval).s, sauf, {});
    assert sauf + {} == sauf;
  }

  lemma SuiviMoissonInv(s: Noyau, s1: Noyau, sauf: set<int>)
    requires Suivi(s, s1, sauf) && Coherent(s1)
    ensures Suivi(s, FreeMourantQueue(s1), sauf)
  {
    hide FreeMourantQueue;
    SuiviMoisson(s1);
    SuiviPuis(s, s1, FreeMourantQueue(s1), sauf, {});
    assert sauf + {} == sauf;
  }

  /** The victim, and its father if that waits. */
  ghost function Touches(s: Noyau, pid: int): set<int> {
    {pid} + if pid in s.procs then PereEnAttente(s, s.procs[pid].pere) else {}
  }

  lemma KillSuivi(s: Noyau, pid: int)
    requires Inv(s) && !Kill(s, pid).Panique?
    ensures Suivi(s, Kill(s, pid).s, Touches(s, pid))
  {
    hide Detacher, Deplacer, Quitter, ReveilPere, FreeMourantQueue, Suivi, PereEnAttente;
    if pid > IDLE && pid in s.procs && s.procs[pid].etat != ZOMBIE && s.procs[pid].etat != MOURANT {
      var p := s.procs[pid];
      if pid == s.elu {
        assert Kill(s, pid) == Quitter(Mourir(s, Elu(s), false));
        MourirInv(s, Elu(s), false);
        MourirSuivi(s, Elu(s), false);
        QuitterSuivi(Mourir(s, Elu(s), false));
        SuiviPuis(s, Mourir(s, Elu(s), false), Kill(s, pid).s, Touches(s, pid), {});
        assert Touches(s, pid) + {} == Touches(s, pid);
      } else if p.pere != NULL {
        TuerFilsSuivi(s, pid);
      } else {
        var rec := p.(etat := MOURANT);
        MourirCoherent(s, pid, rec);
        DeplacerEffet(s, pid, rec, ProcMourants);
        SuiviMaj(s, Deplacer(s, pid, rec, ProcMourants), pid, rec.(chainage := Dans(ProcMourants)));
        SuiviPlus(s, Deplacer(s, pid, rec, ProcMourants), {pid}, Touches(s, pid));
        SuiviMoissonInv(s, Deplacer(s, pid, rec, ProcMourants), Touches(s, pid));
      }
    } else {
      SuiviRien(s, s, Touches(s, pid));
    }
  }

  lemma TuerFilsSuivi(s: Noyau, pid: int)
    requires Inv(s) && pid in s.procs && pid != s.elu && pid != IDLE && Vif(s.procs[pid]) && s.procs[pid].pere != NULL
    ensures Suivi(s, FreeMourantQueue(ReveilPere(Detacher(s, pid, s.procs[pid].(etat := ZOMBIE)), s.procs[pid].pere)), Touches(s, pid))
  {
    hide Detacher, ReveilPere, FreeMourantQueue, Suivi;
    var p := s.procs[pid];
    var s1 := Detacher(s, pid, p.(etat := ZOMBIE));
    ZombieCoherent(s, pid, p.(etat := ZOMBIE));
    SuiviMaj(s, s1, pid, s1.procs[pid]);
    ReveilPereSuivi(s1, p.pere);
    ReveilPereCoherent(s1, p.pere);
    SuiviPuis(s, s1, ReveilPere(s1, p.pere), {pid}, PereEnAttente(s1, p.pere));
    SuiviPlus(s, ReveilPere(s1, p.pere), {pid} + PereEnAttente(s1, p.pere), Touches(s, pid));
    SuiviMoissonInv(s, ReveilPere(s1, p.pere), Touches(s, pid));
  }

  lemma BoucleWaitpidSuivi(s: Noyau, pid: int)
    requires Inv(s) && s.elu != IDLE && (pid >= 0 ==> pid in Elu(s).fils)
    ensures !BoucleWaitpid(s, pid).Panique? && Suivi(s, BoucleWaitpid(s, pid).s, {s.elu})
  {
    hide Recueilli, FreeMourantQueue, Ordonnanceur, Detacher;
    var c := if pid < 0 then PremierZombie(s, Elu(s).fils)
             else if pid in s.procs && s.procs[pid].etat == ZOMBIE then pid else NULL;
    if c in s.procs && c != s.elu {
      RecueilliSuivi(s, c);
    } else {
      PatienterSuivi(s, pid);
    }
  }

  lemma RecueilliSuivi(s: Noyau, c: int)
    requires Inv(s) && c in Elu(s).fils && c in s.procs && s.procs[c].etat == ZOMBIE && c != s.elu
    ensures Suivi(s, FreeMourantQueue(Recueilli(s, c)), {s.elu})
  {
    hide Recueilli, FreeMourantQueue, Without;
    var s1 := Recueilli(s, c);
    RecueilliFiles(s, c);
    RecueilliCoherent(s, c);
    assert Suivi(s, s1, {s.elu});
    SuiviMoissonInv(s, s1, {s.elu});
  }

  lemma PatienterSuivi(s: Noyau, pid: int)
    requires Inv(s) && s.elu != IDLE && (pid >= 0 ==> pid in Elu(s).fils)
    ensures Suivi(s, Ordonnanceur(Detacher(s, s.elu, Elu(s).(etat := ATTEND_FILS, suite := DansWaitpid(pid)))), {s.elu})
  {
    hide Ordonnanceur, Detacher;
    var rec := Elu(s).(etat := ATTEND_FILS, suite := DansWaitpid(pid));
    var s1 := Detacher(s, s.elu, rec);
    DetacherCoherent(s, s.elu, rec);
    DetacherEffet(s, s.elu, rec);
    DetacherElu(s, s.elu, rec);
    EluSauf(s1);
    SuiviMaj(s, s1, s.elu, s1.procs[s.elu]);
    SuiviOrdonnanceur(s1);
    SuiviPuis(s, s1, Ordonnanceur(s1), {s.elu}, {});
    assert {s.elu} + {} == {s.elu};
  }
}
