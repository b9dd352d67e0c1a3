/** The fields of processes that each step writes: these, and no others. */
module KernelWrites {
  import opened PriorityQueue
  import opened KernelState
  import opened KernelMoves
  import opened KernelReap
  import opened KernelSched
  import opened KernelWake
  import opened KernelFiles
  import opened KernelSem
  import opened KernelStart
  import opened KernelDeath
  import opened KernelClock
  import opened KernelFrames
  import opened KernelFollow
  import opened KernelSteps
  import opened KernelTraffic
  import opened KernelAnswers

  // ----- The fields a call writes -----------------------------------------------------------------

  /** The table `procs`, but for a switch and for what reaping takes away. */
  ghost predicate Devient(procs: map<int, Processus>, s': Noyau) {
    && (forall p {:trigger s'.procs[p]} {:trigger p in s'.procs} :: p in s'.procs ==> p in procs && Inchange(procs[p], s'.procs[p]))
    && (forall p {:trigger procs[p]} {:trigger p in procs} :: p in procs && Vif(procs[p]) ==> p in s'.procs)
  }

  function Pret(p: Processus): Processus {
    p.(etat := ACTIVABLE, chainage := Dans(ProcActivables))
  }

  function Bloquer(p: Processus, etat: Etat, r: Anneau, suite: Suite): Processus {
    p.(etat := etat, chainage := Dans(r), suite := suite)
  }

  /** Process `p`, whose record was `rec`, dies; a father that waits for a child is woken, if the
      call is one that wakes it. */
  function Mort(s: Noyau, p: int, rec: Processus, reveille: bool): map<int, Processus> {
    var procs := s.procs[p := rec.(etat := if rec.pere != NULL then ZOMBIE else MOURANT, chainage := Libre)];
    if reveille && rec.pere in procs && procs[rec.pere].etat == ATTEND_FILS
    then procs[rec.pere := Pret(procs[rec.pere])] else procs
  }

  /** Everybody in `q` is ready, with the outcome `status`. */
  function Liberees(s: Noyau, q: seq<int>, status: int): map<int, Processus> {
    map p | p in s.procs :: if p in q then Pret(Marque(s.procs[p], status)) else s.procs[p]
  }

  /** The table once waitpid, waiting for child `cible` or for any, has answered `i`. */
  function Attendu(s: Noyau, cible: int, i: Issue): map<int, Processus>
    requires s.elu in s.procs
  {
    if i.Suspend? then s.procs[s.elu := Elu(s).(etat := ATTEND_FILS, suite := DansWaitpid(cible))]
    else if i.Rend? && i.code in s.procs then
      s.procs[s.elu := Elu(s).(fils := Without(Elu(s).fils, i.code), suite := Utilisateur)]
             [i.code := s.procs[i.code].(etat := MOURANT, pere := NULL)]
    else s.procs
  }

  predicate ChprioValide(s: Noyau, pid: int, newPrio: int) {
    0 < pid < MAX_PROCESS && 0 < newPrio <= PRIO_MAX && pid in s.procs && s.procs[pid].etat != ZOMBIE
  }

  predicate KillValide(s: Noyau, pid: int) {
    0 < pid < MAX_PROCESS && pid in s.procs && Vif(s.procs[pid])
  }

  predicate StartValide(s: Noyau, prio: int, alloue: bool) {
    s.libres != [] && 0 < prio <= PRIO_MAX && alloue
  }

  function Ne(s: Noyau, prio: int): Processus {
    Processus(ACTIVABLE, prio, 0, Dans(ProcActivables), if s.elu == IDLE then NULL else s.elu, [], 0, 0, 0, 0, Utilisateur)
  }

  function Engendre(s: Noyau, prio: int): map<int, Processus>
    requires s.libres != [] && s.elu in s.procs
  {
    var pere := if s.elu == IDLE then Elu(s) else Elu(s).(fils := [s.libres[0]] + Elu(s).fils);
    s.procs[s.elu := pere][s.libres[0] := Ne(s, prio)]
  }

  /** psend: the first receiver gets the message; or the caller waits; or the message is stored. */
  function Envoye(s: Noyau, fid: int, m: int): map<int, Processus>
    requires s.elu in s.procs
  {
    if fid !in s.files then s.procs
    else
      var e, q := Elu(s).(fileValue := m, operationStatus := 1), Chaine(s, AttenteFile(fid));
      if s.files[fid].queueMsg == [] && q != [] && q[0] in s.procs then
        s.procs[s.elu := e][q[0] := Pret(s.procs[q[0]].(fid := -1, fileValue := m, operationStatus := 1))]
      else if |s.files[fid].queueMsg| == s.files[fid].maxMsg then
        s.procs[s.elu := Bloquer(e, ATTEND_FILE, AttenteFile(fid), DansPsend).(fid := fid)]
      else s.procs[s.elu := e]
  }

  /** preceive: the caller waits; or it takes a message, and the first sender gets away. */
  function Recu(s: Noyau, fid: int): map<int, Processus>
    requires s.elu in s.procs
  {
    if fid !in s.files then s.procs
    else
      var e, q := Elu(s).(fileValue := -1, operationStatus := 1), Chaine(s, AttenteFile(fid));
      if s.files[fid].queueMsg == [] then
        s.procs[s.elu := Bloquer(e, ATTEND_FILE, AttenteFile(fid), DansPreceive).(fid := fid)]
      else if q != [] && q[0] in s.procs then
        s.procs[s.elu := e][q[0] := Pret(s.procs[q[0]].(fid := -1, operationStatus := 1))]
      else s.procs[s.elu := e]
  }

  /** Goes on in user mode. */
  function Rentre(s: Noyau): map<int, Processus>
    requires s.elu in s.procs
  {
    s.procs[s.elu := Elu(s).(suite := Utilisateur)]
  }

  function Lit(s: Noyau, pret: bool): map<int, Processus>
    requires s.elu in s.procs
  {
    if pret then Rentre(s) else s.procs[s.elu := Bloquer(Elu(s), ATTEND_ES, ProcBloqueEs, DansConsRead)]
  }

  /** The table of processes as the step writes it. */
  ghost function Ecrits(s: Noyau, a: Appel): map<int, Processus>
    requires s.elu in s.procs
  {
    match a
    case SysStart(prio, alloue) => if StartValide(s, prio, alloue) then Engendre(s, prio) else s.procs
    case SysChprio(pid, newPrio, _) =>
      if ChprioValide(s, pid, newPrio) then s.procs[pid := s.procs[pid].(prio := newPrio)] else s.procs
    case SysExit(retval) => Mort(s, s.elu, Elu(s).(retval := retval), true)
    case SysKill(pid) => if KillValide(s, pid) then Mort(s, pid, s.procs[pid], pid != s.elu) else s.procs
    case SysWaitpid(pid) => Attendu(s, pid, Faire(s, a))
    case SysWaitClock(ticks) => s.procs[s.elu := Bloquer(Elu(s), ENDORMI, ProcEndormis, Utilisateur).(secReveille := ticks)]
    case SysConsRead(pret) => Lit(s, pret)
    case SysPdelete(fid) => if fid in s.files then Liberees(s, Chaine(s, AttenteFile(fid)), 0) else s.procs
    case SysPreset(fid) => if fid in s.files then Liberees(s, Chaine(s, AttenteFile(fid)), 0) else s.procs
    case SysPsend(fid, m) => Envoye(s, fid, m)
    case SysPreceive(fid) => Recu(s, fid)
    case SysSdelete(sid) => if sid in s.sems then Liberees(s, Chaine(s, AttenteSem(sid)), -3) else s.procs
    case SysSreset(sid, count) => if sid in s.sems && count >= 0 then Liberees(s, Chaine(s, AttenteSem(sid)), -4) else s.procs
    case SysSignal(sid) =>
      if sid in s.sems && s.sems[sid] < SHORTINT_MAX then Liberees(s, Premiers(Chaine(s, AttenteSem(sid)), 1), 1) else s.procs
    case SysSignaln(sid, n) =>
      if sid in s.sems && 0 <= n <= SHORTINT_MAX - s.sems[sid] then Liberees(s, Premiers(Chaine(s, AttenteSem(sid)), n), 1) else s.procs
    case SysWait(sid) =>
      if sid in s.sems && SHORTINT_MIN < s.sems[sid] <= 0 then s.procs[s.elu := Bloquer(Elu(s), ATTEND_SEMAPHORE, AttenteSem(sid), DansWait)]
      else s.procs
    case Reprise(pret) => (
      match Elu(s).suite
      case DansWaitpid(cible) => Attendu(s, cible, Faire(s, a))
      case DansConsRead => Lit(s, pret)
      case _ => Rentre(s))
    case Reveils(ticks) => map p | p in s.procs :: if p in Dus(s, ticks) then Pret(s.procs[p]) else s.procs[p]
    case Clavier => map p | p in s.procs :: if p in PremierEs(s) then Pret(s.procs[p]) else s.procs[p]
    case _ => s.procs
  }

  // ----- ... are exactly these --------------------------------------------------------------------

  lemma DevientDe(procs: map<int, Processus>, s1: Noyau, s': Noyau)
    requires s1.procs == procs && Suivi(s1, s', {})
    ensures Devient(procs, s')
  {
  }

  lemma DevientRien(s: Noyau, s': Noyau)
    requires s'.procs == s.procs
    ensures Devient(s.procs, s')
  {
  }

  lemma DevientFinir(procs: map<int, Processus>, s1: Noyau, commute: bool)
    requires s1.procs == procs && Coherent(s1) && DefuntsSansPere(s1) && s1.procs[s1.elu].etat == ELU
    ensures Devient(procs, Finir(s1, commute))
  {
    hide Finir, Suivi, Devient, Coherent;
    SuiviRien(s1, s1, {});
    SuiviFinir(s1, s1, commute, {});
    DevientDe(procs, s1, Finir(s1, commute));
  }

  lemma DevientSuspendu(s: Noyau, rec: Processus, r: Anneau)
    requires Inv(s) && s.elu != IDLE
    requires rec.prio == Elu(s).prio && rec.pere == Elu(s).pere && rec.fils == Elu(s).fils && AttenteFondee(rec)
    requires EnAttente(rec.etat) && Accord(rec.(chainage := Dans(r))) && Admis(s, rec, r)
    ensures Devient(s.procs[s.elu := rec.(chainage := Dans(r))], Ordonnanceur(Deplacer(s, s.elu, rec, r)))
  {
    hide Ordonnanceur, Deplacer, Admis, Tri, Famille, Files, Sems, Suivi, Devient;
    var s1 := Deplacer(s, s.elu, rec, r);
    DeplacerCoherent(s, s.elu, rec, r);
    DeplacerEffet(s, s.elu, rec, r);
    DeplacerElu(s, s.elu, rec, r);
    EluSauf(s1);
    SuiviOrdonnanceur(s1);
    DevientDe(s.procs[s.elu := rec.(chainage := Dans(r))], s1, Ordonnanceur(s1));
  }

  lemma StartEcrits(s: Noyau, prio: int, alloue: bool)
    requires Inv(s) && StartValide(s, prio, alloue)
    ensures Devient(Engendre(s, prio), Start(s, prio, alloue).s)
  {
    hide Finir, Devient, Coherent;
    Sujet(s, s.elu);
    var s2 := NouveauPret(s, prio);
    EngendreTable(s, prio);
    DevientFinir(Engendre(s, prio), s2, prio > Elu(s).prio);
  }

  lemma EngendreTable(s: Noyau, prio: int)
    requires Inv(s) && s.libres != []
    ensures QueueAdd(Inscrit(s, Nouveau(s, prio, ACTIVABLE)), ProcActivables, s.libres[0]).procs == Engendre(s, prio)
  {
    assert s.libres[0] in s.libres;
    assert s.procs[s.elu := Elu(s)] == s.procs;
  }

  lemma ChprioEcrits(s: Noyau, pid: int, newPrio: int, mot: int)
    requires Inv(s) && ChprioValide(s, pid, newPrio)
    ensures Devient(s.procs[pid := s.procs[pid].(prio := newPrio)], Chprio(s, pid, newPrio, mot).s)
  {
    hide Deplacer, Finir, Devient, Coherent;
    Sujet(s, pid);
    var rec := s.procs[pid].(prio := newPrio);
    if pid == s.elu {
      MajPrioCoherent(s, pid, newPrio);
      DevientFinir(s.procs[pid := rec], Maj(s, pid, rec), newPrio < mot);
    } else if s.procs[pid].etat == ACTIVABLE {
      ReplacerCoherent(s, pid, newPrio, ProcActivables);
      DevientFinir(s.procs[pid := rec], Deplacer(s, pid, rec, ProcActivables), Elu(s).prio < newPrio);
    } else if s.procs[pid].etat == ATTEND_FILE {
      ReplacerCoherent(s, pid, newPrio, AttenteFile(s.procs[pid].fid));
      DevientMemes(s.procs[pid := rec], Deplacer(s, pid, rec, AttenteFile(s.procs[pid].fid)));
    } else {
      DevientMemes(s.procs[pid := rec], Maj(s, pid, rec));
    }
  }

  lemma DevientMemes(procs: map<int, Processus>, s': Noyau)
    requires s'.procs == procs
    ensures Devient(procs, s')
  {
  }

  lemma MourirEcrits(s: Noyau, e: Processus, reveille: bool)
    requires Inv(s) && s.elu != IDLE && e.prio == Elu(s).prio && e.pere == Elu(s).pere && e.fils == Elu(s).fils && AttenteFondee(e)
    requires !Quitter(Mourir(s, e, reveille)).Panique?
    ensures Devient(Mort(s, s.elu, e, reveille), Quitter(Mourir(s, e, reveille)).s)
  {
    hide Ordonnanceur, FreeMourantQueue, Mourir, Mort, Devient, Suivi, Coherent, DefuntsSansPere;
    SansAttente(s);
    var s1 := Mourir(s, e, reveille);
    MourirInv(s, e, reveille);
    MourirTable(s, e, reveille);
    QuitterSuivi(s1);
    DevientDe(Mort(s, s.elu, e, reveille), s1, Quitter(s1).s);
  }

  lemma MourirTable(s: Noyau, e: Processus, reveille: bool)
    requires Inv(s) && s.elu != IDLE && e.prio == Elu(s).prio && e.pere == Elu(s).pere && e.fils == Elu(s).fils && AttenteFondee(e)
    ensures Mourir(s, e, reveille).procs == Mort(s, s.elu, e, reveille)
  {
    hide Detacher, ReveilPere, Tri, Files, Sems;
    var rec := e.(etat := if e.pere != NULL then ZOMBIE else MOURANT);
    DetacherEffet(s, s.elu, rec);
    PereConnu(s);
    if e.pere != NULL {
      ZombieCoherent(s, s.elu, rec);
      ReveilPereCoherent(Detacher(s, s.elu, rec), e.pere);
    }
  }

  lemma ExitEcrits(s: Noyau, retval: int)
    requires Inv(s) && s.elu != IDLE && !Exit(s, retval).Panique?
    ensures Devient(Mort(s, s.elu, Elu(s).(retval := retval), true), Exit(s, retval).s)
  {
    var e := Elu(s).(retval := retval);
    assert Exit(s, retval) == Quitter(Mourir(s, e, true));
    hide Mourir, Quitter, Exit, Mort, Devient;
    MourirEcrits(s, e, true);
  }

  /** A process other than the caller has been struck, and nobody reaped yet. */
  function Frappe(s: Noyau, pid: int): Noyau
    requires pid in s.procs
  {
    var p := s.procs[pid];
    if p.pere != NULL then ReveilPere(Detacher(s, pid, p.(etat := ZOMBIE)), p.pere)
    else Deplacer(s, pid, p.(etat := MOURANT), ProcMourants)
  }

  lemma FrappeEffet(s: Noyau, pid: int)
    requires Inv(s) && pid in s.procs && pid != s.elu && pid != IDLE && Vif(s.procs[pid])
    ensures var s2 := Frappe(s, pid);
      && Coherent(s2) && DefuntsSansPere(s2) && s2.elu == s.elu && s2.procs[s2.elu].etat == ELU
      && s2.procs == if s.procs[pid].pere != NULL then Mort(s, pid, s.procs[pid], true)
                     else Mort(s, pid, s.procs[pid], true)[pid := s.procs[pid].(etat := MOURANT, chainage := Dans(ProcMourants))]
  {
    hide Detacher, Deplacer, ReveilPere, Coherent, DefuntsSansPere, Mort;
    Sujet(s, s.elu);
    PereConnu(s);
    if s.procs[pid].pere != NULL { FrappeFils(s, pid); } else { FrappeSeul(s, pid); }
  }

  lemma FrappeFils(s: Noyau, pid: int)
    requires Inv(s) && pid in s.procs && pid != s.elu && pid != IDLE && Vif(s.procs[pid]) && s.procs[pid].pere != NULL
    ensures var s2 := ReveilPere(Detacher(s, pid, s.procs[pid].(etat := ZOMBIE)), s.procs[pid].pere);
      && Coherent(s2) && DefuntsSansPere(s2) && s2.elu == s.elu && s2.elu in s2.procs && s2.procs[s2.elu].etat == ELU
      && s2.procs == Mort(s, pid, s.procs[pid], true)
  {
    hide Detacher, ReveilPere, Tri, Files, Sems, Trie, Chainages;
    var p := s.procs[pid];
    ZombieCoherent(s, pid, p.(etat := ZOMBIE));
    ReveilPereCoherent(Detacher(s, pid, p.(etat := ZOMBIE)), p.pere);
  }

  lemma FrappeSeul(s: Noyau, pid: int)
    requires Inv(s) && pid in s.procs && pid != s.elu && pid != IDLE && Vif(s.procs[pid]) && s.procs[pid].pere == NULL
    ensures var s2 := Deplacer(s, pid, s.procs[pid].(etat := MOURANT), ProcMourants);
      && Coherent(s2) && DefuntsSansPere(s2) && s2.elu == s.elu && s2.elu in s2.procs && s2.procs[s2.elu].etat == ELU
      && s2.procs == Mort(s, pid, s.procs[pid], true)[pid := s.procs[pid].(etat := MOURANT, chainage := Dans(ProcMourants))]
  {
    hide Deplacer, Tri, Files, Sems, Trie;
    var p := s.procs[pid];
    PereConnu(s);
    MourirCoherent(s, pid, p.(etat := MOURANT));
    DeplacerEffet(s, pid, p.(etat := MOURANT), ProcMourants);
    DeplacerElu(s, pid, p.(etat := MOURANT), ProcMourants);
  }

  lemma KillFrappe(s: Noyau, pid: int)
    requires Inv(s) && KillValide(s, pid) && pid != s.elu && !Kill(s, pid).Panique?
    ensures Kill(s, pid) == Rend(FreeMourantQueue(Frappe(s, pid)), 0, 0)
  {
    hide FreeMourantQueue, ReveilPere, Detacher, Deplacer;
  }

  lemma KillEcrits(s: Noyau, pid: int)
    requires Inv(s) && KillValide(s, pid) && !Kill(s, pid).Panique?
    ensures Devient(Mort(s, pid, s.procs[pid], pid != s.elu), Kill(s, pid).s)
  {
    hide Mort, Devient, Frappe, FreeMourantQueue, Suivi, Mourir, Quitter;
    if pid == s.elu {
      KillSoi(s);
      hide Kill;
      MourirEcrits(s, Elu(s), false);
    } else {
      KillFrappe(s, pid);
      FrappeEffet(s, pid);
      SuiviMoisson(Frappe(s, pid));
      FrappeDevient(s, pid, FreeMourantQueue(Frappe(s, pid)));
    }
  }

  lemma FrappeDevient(s: Noyau, pid: int, s': Noyau)
    requires pid in s.procs && NULL !in s.procs && Suivi(Frappe(s, pid), s', {})
    requires Frappe(s, pid).procs == if s.procs[pid].pere != NULL then Mort(s, pid, s.procs[pid], true)
                     else Mort(s, pid, s.procs[pid], true)[pid := s.procs[pid].(etat := MOURANT, chainage := Dans(ProcMourants))]
    ensures Devient(Mort(s, pid, s.procs[pid], true), s')
  {
    hide Frappe, Devient, Suivi;
    var rec := s.procs[pid].(etat := MOURANT);
    if s.procs[pid].pere != NULL {
      DevientDe(Mort(s, pid, s.procs[pid], true), Frappe(s, pid), s');
    } else {
      var dernier := rec.(chainage := Dans(ProcMourants));
      assert s.procs[pid := rec.(chainage := Libre)][pid := dernier] == s.procs[pid := dernier];
      DevientQueue(s.procs, pid, rec.(chainage := Libre), ProcMourants, Frappe(s, pid), s');
    }
  }

  lemma AttenduEcrits(s: Noyau, pid: int)
    requires Inv(s) && s.elu != IDLE && (pid >= 0 ==> pid in Elu(s).fils)
    ensures Devient(Attendu(s, pid, BoucleWaitpid(s, pid)), BoucleWaitpid(s, pid).s)
  {
    hide Recueilli, FreeMourantQueue, Ordonnanceur, Detacher, Devient, Inv, Without;
    SansAttente(s);
    PereConnu(s);
    var c := if pid < 0 then PremierZombie(s, Elu(s).fils)
             else if pid in s.procs && s.procs[pid].etat == ZOMBIE then pid else NULL;
    if c in s.procs && c != s.elu {
      RecueilliEcrits(s, c);
    } else {
      PatienterEcrits(s, pid);
    }
  }

  lemma RecueilliEcrits(s: Noyau, c: int)
    requires Inv(s) && c in Elu(s).fils && c in s.procs && s.procs[c].etat == ZOMBIE && c != s.elu
    ensures Devient(s.procs[s.elu := Elu(s).(fils := Without(Elu(s).fils, c), suite := Utilisateur)]
                           [c := s.procs[c].(etat := MOURANT, pere := NULL)], FreeMourantQueue(Recueilli(s, c)))
  {
    hide Recueilli, FreeMourantQueue, Without, Suivi;
    var s1 := Recueilli(s, c);
    RecueilliFiles(s, c);
    RecueilliCoherent(s, c);
    SuiviMoisson(s1);
    DevientQueue(s.procs[s.elu := Elu(s).(fils := Without(Elu(s).fils, c), suite := Utilisateur)], c,
                 s.procs[c].(etat := MOURANT, pere := NULL), ProcMourants, s1, FreeMourantQueue(s1));
  }

  /** The ring a dead process is linked in does not matter. */
  lemma DevientQueue(procs: map<int, Processus>, c: int, rec: Processus, r: Anneau, s1: Noyau, s': Noyau)
    requires s1.procs == procs[c := rec.(chainage := Dans(r))] && !Vif(rec) && Suivi(s1, s', {})
    ensures Devient(procs[c := rec], s')
  {
    forall p | p in s'.procs ensures p in procs[c := rec] && Inchange(procs[c := rec][p], s'.procs[p]) {
      assert Inchange(s1.procs[p], s'.procs[p]);
    }
    forall p | p in procs[c := rec] && Vif(procs[c := rec][p]) ensures p in s'.procs {
      assert s1.procs[p] == procs[p];
    }
  }

  lemma PatienterEcrits(s: Noyau, pid: int)
    requires Inv(s) && s.elu != IDLE && (pid >= 0 ==> pid in Elu(s).fils)
    ensures Devient(s.procs[s.elu := Elu(s).(etat := ATTEND_FILS, suite := DansWaitpid(pid))],
                    Ordonnanceur(Detacher(s, s.elu, Elu(s).(etat := ATTEND_FILS, suite := DansWaitpid(pid)))))
  {
    hide Ordonnanceur, Detacher, Devient, Suivi;
    var rec := Elu(s).(etat := ATTEND_FILS, suite := DansWaitpid(pid));
    var s1 := Detacher(s, s.elu, rec);
    DetacherCoherent(s, s.elu, rec);
    DetacherEffet(s, s.elu, rec);
    DetacherElu(s, s.elu, rec);
    EluSauf(s1);
    SuiviOrdonnanceur(s1);
    DevientDe(s.procs[s.elu := rec], s1, Ordonnanceur(s1));
  }

  lemma SuspensionsEcrits(s: Noyau, ticks: int)
    requires Inv(s) && s.elu != IDLE
    ensures Devient(s.procs[s.elu := Bloquer(Elu(s), ENDORMI, ProcEndormis, Utilisateur).(secReveille := ticks)], WaitClock(s, ticks).s)
    ensures Devient(s.procs[s.elu := Bloquer(Elu(s), ATTEND_ES, ProcBloqueEs, DansConsRead)], ConsReadBloque(s).s)
    ensures Devient(Rentre(s), ConsReadLu(s).s)
  {
    hide Ordonnanceur, Deplacer, Devient;
    DevientSuspendu(s, Elu(s).(etat := ENDORMI, secReveille := ticks, suite := Utilisateur), ProcEndormis);
    DevientSuspendu(s, Elu(s).(etat := ATTEND_ES, suite := DansConsRead), ProcBloqueEs);
    DevientMemes(Rentre(s), ConsReadLu(s).s);
  }

  lemma VideeEcrits(s: Noyau, r: Anneau, status: int, s1: Noyau)
    requires Videe(s, r, status, s1)
    ensures s1.procs == Liberees(s, Chaine(s, r), status)
  {
    var t := Liberees(s, Chaine(s, r), status);
    assert s1.procs.Keys == t.Keys;
    forall x | x in s.procs ensures s1.procs[x] == t[x] {
    }
  }

  lemma VidageEcrits(s: Noyau, fid: int)
    requires Inv(s) && fid in s.files
    ensures Preset(s, fid).Rend? && Devient(Liberees(s, Chaine(s, AttenteFile(fid)), 0), Preset(s, fid).s)
    ensures Pdelete(s, fid).Rend? && Devient(Liberees(s, Chaine(s, AttenteFile(fid)), 0), Pdelete(s, fid).s)
  {
    hide ReveillerListe, Finir, Videe, Devient, Liberees, Tri, Table, Famille, Sems, Etats;
    var r := AttenteFile(fid);
    SansAttente(s);
    var s1, commute := ReveillerListe(s, Chaine(s, r), 0), Depasse(s, Chaine(s, r), Elu(s).prio);
    VideeElu(s, r, 0);
    VideeEcrits(s, r, 0, s1);
    MajFileInv(s1, fid, []);
    DevientFinir(s1.procs, MajFile(s1, fid, []), commute);
    RetireeCoherent(s1, fid);
    DevientFinir(s1.procs, Retiree(s1, fid), commute);
  }

  lemma SviderEcrits(s: Noyau, sid: int, count: int)
    requires Inv(s) && sid in s.sems
    ensures Devient(Liberees(s, Chaine(s, AttenteSem(sid)), -3), Sdelete(s, sid).s)
    ensures count >= 0 ==> Devient(Liberees(s, Chaine(s, AttenteSem(sid)), -4), Sreset(s, sid, count).s)
  {
    hide ReveillerListe, Videe, Devient, Liberees;
    var s1 := VidageSem(s, sid, -3);
    VideeEcrits(s, AttenteSem(sid), -3, s1);
    DevientMemes(s1.procs, Sdelete(s, sid).s);
    var s2 := VidageSem(s, sid, -4);
    VideeEcrits(s, AttenteSem(sid), -4, s2);
    if count >= 0 { DevientMemes(s2.procs, Sreset(s, sid, count).s); }
  }

  lemma EnvoyeEcrits(s: Noyau, fid: int, m: int)
    requires Inv(s) && s.elu != IDLE && fid in s.files && Elu(s).suite == Utilisateur
    ensures Devient(Envoye(s, fid, m), Psend(s, fid, m).s)
  {
    hide Reveil, Finir, Ordonnanceur, Deplacer, Devient, Tri, Trie, Famille, Sems;
    var f, q := s.files[fid], Chaine(s, AttenteFile(fid));
    if q != [] { TeteEnAttente(s, fid); }
    var e := Elu(s).(fileValue := m, operationStatus := 1);
    if (f.queueMsg != [] || q == []) && |f.queueMsg| == f.maxMsg {
      DevientSuspendu(s, Elu(s).(etat := ATTEND_FILE, fid := fid, fileValue := m, operationStatus := 1, suite := DansPsend),
                      AttenteFile(fid));
    } else {
      var s0 := Maj(s, s.elu, e);
      MajEluInv(s, e);
      if f.queueMsg == [] && q != [] {
        ReveilEcrits(s0, q[0], s.procs[q[0]].(fid := -1, fileValue := m, operationStatus := 1), s.procs[q[0]].prio > Elu(s).prio);
      } else {
        DevientMemes(s0.procs, MajFile(s0, fid, f.queueMsg + [m]));
      }
    }
  }

  lemma ReveilEcrits(s: Noyau, p: int, rec: Processus, commute: bool)
    requires Coherent(s) && DefuntsSansPere(s) && s.procs[s.elu].etat == ELU
    requires p in s.procs && p != s.elu && EnAttente(s.procs[p].etat)
    requires rec.prio == s.procs[p].prio && rec.pere == s.procs[p].pere && rec.fils == s.procs[p].fils && AttenteFondee(rec)
    ensures Devient(s.procs[p := Pret(rec)], Finir(Reveil(s, p, rec), commute))
  {
    hide Finir, Reveil, Devient, Coherent;
    ReveilCoherent(s, p, rec);
    DevientFinir(s.procs[p := Pret(rec)], Reveil(s, p, rec), commute);
  }

  lemma RecuEcrits(s: Noyau, fid: int)
    requires Inv(s) && s.elu != IDLE && fid in s.files && Elu(s).suite == Utilisateur
    ensures Devient(Recu(s, fid), Preceive(s, fid).s)
  {
    hide Reveil, Finir, Ordonnanceur, Deplacer, Devient, Tri, Trie, Famille, Sems;
    var f, q := s.files[fid], Chaine(s, AttenteFile(fid));
    if f.queueMsg == [] {
      DevientSuspendu(s, Elu(s).(etat := ATTEND_FILE, fid := fid, fileValue := -1, operationStatus := 1, suite := DansPreceive),
                      AttenteFile(fid));
    } else {
      var e := Elu(s).(fileValue := -1, operationStatus := 1);
      var s0 := Maj(s, s.elu, e);
      MajEluInv(s, e);
      if q != [] {
        TeteEnAttente(s, fid);
        var p := s.procs[q[0]];
        var msgs := f.queueMsg[1..] + [p.fileValue];
        MajFileInv(s0, fid, msgs);
        ReveilEcrits(MajFile(s0, fid, msgs), q[0], p.(fid := -1, operationStatus := 1), p.prio > Elu(s).prio);
      } else {
        DevientMemes(s0.procs, MajFile(s0, fid, f.queueMsg[1..]));
      }
    }
  }

  lemma LibereesTable(s: Noyau, sid: int, n: nat, s': Noyau)
    requires Inv(s) && Liberes(s, sid, n, s')
    ensures Devient(Liberees(s, Premiers(Chaine(s, AttenteSem(sid)), n), 1), s')
  {
    var q := Chaine(s, AttenteSem(sid));
    forall x | x in Premiers(q, n) ensures x in q && x in s.procs && s.procs[x].etat != ATTEND_FILE {
    }
  }

  lemma SignaleLiberes(s: Noyau, sid: int, s': Noyau)
    requires Inv(s) && Signale(s, sid, s')
    ensures Signales(s, sid, 1, s')
  {
    var q := Chaine(s, AttenteSem(sid));
    if q != [] {
      assert q[0] in q;
      assert Premiers(q, 1) == [q[0]];
    } else {
      assert Premiers(q, 1) == [];
    }
  }

  lemma SignauxEcrits(s: Noyau, a: Appel)
    requires Inv(s) && Bornes(s) && Legal(s, a) && !Faire(s, a).Panique? && (a.SysSignal? || a.SysSignaln?)
    ensures Devient(Ecrits(s, a), Faire(s, a).s)
  {
    hide Signal, Signaux, Inv, Bornes, Devient, Liberees;
    var sid := a.sid;
    DevientRien(s, s);
    if sid in s.sems {
      if a.SysSignal? {
        SignalEffet(s, sid);
        if s.sems[sid] < SHORTINT_MAX {
          SignaleLiberes(s, sid, Signal(s, sid).s);
          LibereesTable(s, sid, 1, Signal(s, sid).s);
        } else { SemBornee(s, sid); }
      } else if a.n >= 0 {
        SignalnAtomique(s, sid, a.n);
        if a.n <= SHORTINT_MAX - s.sems[sid] { LibereesTable(s, sid, a.n, Signaln(s, sid, a.n).s); }
      } else {
        SignauxVide(s, sid, a.n);
      }
    } else {
      SignalAbsent(s, sid);
    }
  }

  lemma SemBornee(s: Noyau, sid: int)
    requires Inv(s) && sid in s.sems
    ensures SHORTINT_MIN <= s.sems[sid] <= SHORTINT_MAX
  {
  }

  lemma WaitEcrits(s: Noyau, sid: int)
    requires Inv(s) && Legal(s, SysWait(sid))
    ensures Devient(Ecrits(s, SysWait(sid)), Wait(s, sid).s)
  {
    hide Ordonnanceur, Deplacer, Devient, Inv, Coherent, MajSem, Admis, Accord, AttenteFondee;
    DevientRien(s, s);
    if sid in s.sems && s.sems[sid] > SHORTINT_MIN {
      WaitEnAttente(s, sid);
      var s1 := MajSem(s, sid, s.sems[sid] - 1);
      DevientRien(s, s1);
      if s.sems[sid] <= 0 {
        DevientSuspendu(s1, Elu(s).(etat := ATTEND_SEMAPHORE, suite := DansWait), AttenteSem(sid));
      }
    }
  }

  lemma ReveilsEcrits(s: Noyau, ticks: int)
    requires Inv(s)
    ensures Devient(Ecrits(s, Reveils(ticks)), VerifieReveille(s, ticks))
  {
    hide Finir, Eveiller, Restants, Devient, Coherent, Eveilles;
    Sujet(s, s.elu);
    var q := Chaine(s, ProcEndormis);
    var m := Restants(s.procs, q, ticks);
    EveillerEffet(s, m);
    VerifieReveilleExact(s, ticks);
    EveillesEcrits(s, m, Eveiller(s, q, m), ticks);
    DevientFinir(Ecrits(s, Reveils(ticks)), Eveiller(s, q, m), Depasse(s, q[m..], Elu(s).prio));
  }

  lemma EveillesEcrits(s: Noyau, m: nat, s': Noyau, ticks: int)
    requires Eveilles(s, m, s') && Inv(s)
    requires var q := Chaine(s, ProcEndormis);
      forall p :: p in q ==> p in s.procs && (p in q[..m] <==> s.procs[p].secReveille > ticks)
    ensures s'.procs == Ecrits(s, Reveils(ticks)) && s'.procs[s'.elu].etat == ELU
  {
    hide Inv, Dus;
    Endormis(s, ticks);
    SansAttente(s);
    var t := Ecrits(s, Reveils(ticks));
    assert s'.procs.Keys == t.Keys;
    forall p | p in s.procs ensures s'.procs[p] == t[p] {
    }
  }

  lemma Endormis(s: Noyau, ticks: int)
    requires Inv(s)
    ensures forall p :: p in Dus(s, ticks) <==> p in Chaine(s, ProcEndormis) && p in s.procs && s.procs[p].secReveille <= ticks
    ensures s.elu !in Chaine(s, ProcEndormis)
  {
    hide Tri, Files, Sems, Famille, Table;
  }

  lemma TeteBloqueEs(s: Noyau)
    requires Inv(s) && Chaine(s, ProcBloqueEs) != []
    ensures var p := Chaine(s, ProcBloqueEs)[0]; p in s.procs && s.procs[p].etat == ATTEND_ES && p != s.elu
  {
    assert Chaine(s, ProcBloqueEs)[0] in Chaine(s, ProcBloqueEs);
  }

  lemma ClavierEcrits(s: Noyau)
    requires Inv(s)
    ensures Devient(Ecrits(s, Clavier), VerifieEs(s))
  {
    hide Finir, Reveil, Tri, Files, Sems, Trie, Famille, Table, Devient;
    var q := Chaine(s, ProcBloqueEs);
    if q == [] {
      assert Ecrits(s, Clavier) == s.procs;
      DevientRien(s, s);
    } else {
      TeteBloqueEs(s);
      var t := s.procs[q[0] := Pret(s.procs[q[0]])];
      assert Ecrits(s, Clavier).Keys == t.Keys;
      assert Ecrits(s, Clavier) == t;
      ReveilEcrits(s, q[0], s.procs[q[0]], Elu(s).prio > s.procs[q[0]].prio);
    }
  }

  lemma RepriseEcrits(s: Noyau, pret: bool)
    requires Inv(s) && Legal(s, Reprise(pret))
    ensures Devient(Ecrits(s, Reprise(pret)), Reprendre(s, pret).s)
  {
    hide BoucleWaitpid, ConsReadBloque, ConsReadLu, Inv, Devient, Attendu, Rentre;
    SansAttente(s);
    match Elu(s).suite {
      case DansWaitpid(cible) =>
        CibleDuFils(s);
        AttenduEcrits(s, cible);
      case DansConsRead => SuspensionsEcrits(s, 0);
      case _ => RentreEcrits(s);
    }
  }

  lemma RentreEcrits(s: Noyau)
    requires s.elu in s.procs
    ensures Devient(Rentre(s), ReprisePsend(s).s) && Devient(Rentre(s), ReprisePreceive(s).s) && Devient(Rentre(s), RepriseWait(s).s)
  {
  }

  lemma WaitpidEcrits(s: Noyau, pid: int)
    requires Inv(s) && Legal(s, SysWaitpid(pid))
    ensures Devient(Ecrits(s, SysWaitpid(pid)), Waitpid(s, pid).s)
  {
    hide BoucleWaitpid, Waitpid, Inv, Devient;
    SansAttente(s);
    PereConnu(s);
    WaitpidInv(s, pid);
    DevientRien(s, s);
    if if pid >= 0 then pid in Elu(s).fils else Elu(s).fils != [] {
      AttenduEcrits(s, pid);
    }
  }

  /** A step writes the fields listed in `Ecrits`, and no other field of any process. */
  lemma FaireEcrits(s: Noyau, a: Appel)
    requires Inv(s) && Bornes(s) && Legal(s, a) && !Faire(s, a).Panique?
    ensures Devient(Ecrits(s, a), Faire(s, a).s)
  {
    hide Start, Chprio, Exit, Kill, Waitpid, WaitClock, ConsReadBloque, ConsReadLu, Pcreate, Pdelete, Preset, Psend, Preceive;
    hide Screate, Sdelete, Sreset, Signal, Signaln, TryWait, Wait, Reprendre, VerifieReveille, Ordonnanceur, VerifieEs;
    hide Inv, Bornes, Devient, Mort, Liberees, Engendre, Envoye, Recu, Attendu;
    DevientRien(s, s);
    match a {
      case SysStart(prio, alloue) => if StartValide(s, prio, alloue) { StartEcrits(s, prio, alloue); } else { Refus(s, a); }
      case SysChprio(pid, newPrio, mot) => if ChprioValide(s, pid, newPrio) { ChprioEcrits(s, pid, newPrio, mot); } else { Refus(s, a); }
      case SysExit(retval) => ExitEcrits(s, retval);
      case SysKill(pid) => if KillValide(s, pid) { KillEcrits(s, pid); } else { Refus(s, a); }
      case SysWaitpid(pid) => WaitpidEcrits(s, pid);
      case SysWaitClock(ticks) => SuspensionsEcrits(s, ticks);
      case SysConsRead(pret) => SuspensionsEcrits(s, 0);
      case SysSdelete(sid) => if sid in s.sems { SviderEcrits(s, sid, 0); } else { Refus(s, a); }
      case SysSreset(sid, count) => if sid in s.sems && count >= 0 { SviderEcrits(s, sid, count); } else { Refus(s, a); }
      case SysSignal(_) => SignauxEcrits(s, a);
      case SysSignaln(_, _) => SignauxEcrits(s, a);
      case SysWait(sid) => WaitEcrits(s, sid);
      case Reprise(pret) => RepriseEcrits(s, pret);
      case Reveils(ticks) => ReveilsEcrits(s, ticks);
      case Tranche => TrancheSuivi(s); DevientDe(s.procs, s, Ordonnanceur(s));
      case Clavier => ClavierEcrits(s);
      case SysPdelete(fid) => if fid in s.files { VidageEcrits(s, fid); } else { FileAbsente(s, fid, 0); }
      case SysPreset(fid) => if fid in s.files { VidageEcrits(s, fid); } else { FileAbsente(s, fid, 0); }
      case SysPsend(fid, m) => if fid in s.files { EnvoyeEcrits(s, fid, m); } else { FileAbsente(s, fid, m); EnvoiAbsent(s, fid, m); }
      case SysPreceive(fid) => if fid in s.files { RecuEcrits(s, fid); } else { FileAbsente(s, fid, 0); EnvoiAbsent(s, fid, 0); }
      case _ => TableIntacte(s, a); DevientRien(s, Faire(s, a).s);
    }
  }

  lemma EnvoiAbsent(s: Noyau, fid: int, m: int)
    requires s.elu in s.procs && fid !in s.files
    ensures Envoye(s, fid, m) == s.procs && Recu(s, fid) == s.procs
  {
  }

  /** The calls that are refused answer -1 and change nothing. */
  lemma Refus(s: Noyau, a: Appel)
    requires s.elu in s.procs
    ensures a.SysStart? && !StartValide(s, a.prio, a.alloue) ==> Faire(s, a) == Rend(s, -1, 0)
    ensures a.SysChprio? && !ChprioValide(s, a.pid, a.newPrio) ==> Faire(s, a) == Rend(s, -1, 0)
    ensures a.SysKill? && !KillValide(s, a.pid) ==> Faire(s, a) == Rend(s, -1, 0)
    ensures a.SysSdelete? && a.sid !in s.sems ==> Faire(s, a) == Rend(s, -1, 0)
    ensures a.SysSreset? && (a.sid !in s.sems || a.count < 0) ==> Faire(s, a) == Rend(s, -1, 0)
  {
  }
}
