/** What becomes, over a run, of a process that dies, sleeps or waits, and of a message queue nobody
    reads. */
module KernelLives {
  import opened PriorityQueue
  import opened KernelState
  import opened KernelMoves
  import opened KernelReap
  import opened KernelSched
  import opened KernelWake
  import opened KernelFiles
  import opened KernelSem
  import opened KernelStart
  import opened KernelDeath
  import opened KernelClock
  import opened KernelFollow
  import opened KernelSteps
  import opened KernelTraffic
  import opened KernelAnswers
  import opened KernelWrites
  import opened KernelReplies
  import opened KernelEffects
  import opened KernelOrder
  import opened KernelRuns

  // ----- Death ----------------------------------------------------------------------------------------

  /** The step is the death of `p`. */
  predicate Perit(s: Noyau, a: Appel, p: int) {
    (a == SysKill(p) && KillValide(s, p)) || (a.SysExit? && s.elu == p)
  }

  lemma PeritLaisse(s: Noyau, a: Appel, p: int)
    requires Inv(s) && Legal(s, a) && !Faire(s, a).Panique? && Perit(s, a, p)
    ensures exists v :: Laissee(Faire(s, a).s, p, v)
  {
    hide Kill, Exit, Inv;
    if a.SysExit? {
      ExitLaisse(s, a.retval);
      assert Laissee(Faire(s, a).s, p, a.retval);
    } else if p == s.elu {
      MortDuCourant(s, 0);
      assert Laissee(Faire(s, a).s, p, Elu(s).retval);
    } else {
      KillPanique(s, p);
      KillTue(s, p);
      assert Laissee(Faire(s, a).s, p, s.procs[p].retval);
    }
  }

  predicate Defunt(s: Noyau, p: int) {
    p in s.procs ==> !Vif(s.procs[p])
  }

  lemma LaisseeHors(s: Noyau, p: int, v: int)
    requires Inv(s) && Laissee(s, p, v)
    ensures s.elu != p && p !in Chaine(s, ProcActivables)
  {
  }

  /** Death is final: a process that has exited, or has been killed by a call that did not refuse,
      is neither running nor ready in any later state, until a start returns its pid again. */
  lemma MortDefinitive(ss: seq<Noyau>, actes: seq<Appel>, p: int, i: nat, k: nat)
    requires Course(ss, actes) && Inv(ss[0]) && i < k <= |actes| && Perit(ss[i], actes[i], p) && PasRendu(ss, actes, p, i, k)
    ensures ss[k].elu != p && p !in Chaine(ss[k], ProcActivables) && Defunt(ss[k], p)
  {
    hide Inv, Faire, Perit;
    CourseInv(ss, actes, i);
    CourseInv(ss, actes, k);
    Etape(ss, actes, i);
    PeritLaisse(ss[i], actes[i], p);
    var v :| Laissee(ss[i+1], p, v);
    LaisseeToujours(ss, actes, p, v, i, k);
    LaisseeHors(ss[k], p, v);
  }

  /** In particular after a kill that answered 0. */
  lemma KillDefinitif(ss: seq<Noyau>, actes: seq<Appel>, pid: int, i: nat, k: nat)
    requires Course(ss, actes) && Inv(ss[0]) && i < k <= |actes| && actes[i] == SysKill(pid) && PasRendu(ss, actes, pid, i, k)
    requires ss[i].elu in ss[i].procs && Faire(ss[i], actes[i]).Rend? && Faire(ss[i], actes[i]).code == 0
    ensures ss[k].elu != pid && Defunt(ss[k], pid)
  {
    hide Inv, Faire;
    Etape(ss, actes, i);
    Refus(ss[i], actes[i]);
    MortDefinitive(ss, actes, pid, i, k);
  }

  // ----- Sleep ----------------------------------------------------------------------------------------

  lemma DortHors(s: Noyau, a: Appel, p: int, ticks: int)
    requires Inv(s) && Legal(s, a) && !Faire(s, a).Panique? && Dort(s, p, ticks)
    requires a != SysKill(p) && !(a.Reveils? && a.ticks >= ticks) && !(a.SysChprio? && a.pid == p)
    ensures p !in Sauf(s, a)
  {
    hide Start, Inv, Premier, Membres, SurSem, PereEnAttente, PremierEs;
    DortAilleurs(s, p, ticks);
    if a.SysStart? {
      StartSuivi(s, a.prio, a.alloue);
      NegatifHors(s);
    }
  }

  lemma DortAilleurs(s: Noyau, p: int, ticks: int)
    requires Inv(s) && Dort(s, p, ticks)
    ensures p != s.elu && p !in Chaine(s, ProcActivables) && p !in SurSem(s) && p !in PremierEs(s) && p in Chaine(s, ProcEndormis)
    ensures forall pere :: p !in PereEnAttente(s, pere)
    ensures forall fid, vide :: p !in Premier(s, fid, vide)
    ensures forall fid :: p !in Membres(Chaine(s, AttenteFile(fid)))
  {
    hide Tri, Files, Sems, Famille, Table;
    forall fid, vide ensures p !in Premier(s, fid, vide) {
      var q := Chaine(s, AttenteFile(fid));
      if q != [] { assert q[0] in q; }
    }
    var q := Chaine(s, ProcBloqueEs);
    if q != [] { assert q[0] in q; }
  }

  /** A sleeper sleeps on, whatever else happens. */
  lemma DortReste(s: Noyau, a: Appel, p: int, ticks: int)
    requires Inv(s) && Legal(s, a) && !Faire(s, a).Panique? && Dort(s, p, ticks)
    requires a != SysKill(p) && !(a.Reveils? && a.ticks >= ticks)
    ensures Dort(Faire(s, a).s, p, ticks)
  {
    hide Inv, Suivi, Sauf, Faire;
    if a.SysChprio? && a.pid == p {
      ChprioDort(s, a, p, ticks);
    } else {
      DortHors(s, a, p, ticks);
      FaireSuivi(s, a);
      InchangeParSuivi(s, Faire(s, a).s, Sauf(s, a), p);
    }
  }

  lemma ChprioDort(s: Noyau, a: Appel, p: int, ticks: int)
    requires Inv(s) && Legal(s, a) && Dort(s, p, ticks) && a.SysChprio? && a.pid == p
    ensures !Faire(s, a).Panique? && Dort(Faire(s, a).s, p, ticks)
  {
    hide Inv, Chprio;
    ChprioInv(s, p, a.newPrio, a.mot);
    ChprioReste(s, p, a.newPrio, a.mot);
  }

  /** The tick that has come readies it. */
  lemma DortEveille(s: Noyau, p: int, ticks: int, u: int)
    requires Inv(s) && Inv(VerifieReveille(s, u)) && Dort(s, p, ticks) && u >= ticks
    ensures var s' := VerifieReveille(s, u); s'.elu == p || p in Chaine(s', ProcActivables)
  {
    hide VerifieReveille, Tri, Files, Sems, Famille, Table;
    DortAilleurs(s, p, ticks);
    ReveilsEffet(s, u);
  }

  lemma DebutSommeil(s: Noyau, ticks: int)
    requires Inv(s) && Legal(s, SysWaitClock(ticks))
    ensures Dort(Faire(s, SysWaitClock(ticks)).s, s.elu, ticks)
  {
    hide Inv, WaitClock, Dort;
    WaitClockEffet(s, ticks);
  }

  lemma FinSommeil(s: Noyau, a: Appel, p: int, ticks: int)
    requires Inv(s) && a.Reveils? && a.ticks >= ticks && Dort(s, p, ticks)
    ensures s.elu in s.procs && Faire(s, a) == Rend(VerifieReveille(s, a.ticks), 0, 0)
    ensures Faire(s, a).s.elu == p || p in Chaine(Faire(s, a).s, ProcActivables)
  {
    hide Inv, VerifieReveille, Dort;
    SansAttente(s);
    VerifieReveilleExact(s, a.ticks);
    DortEveille(s, p, ticks, a.ticks);
  }

  /** wait_clock(ticks): the caller sleeps in every later state, up to the first tick u >= ticks,
      unless it is killed; and that tick readies it. */
  lemma {:induction false} Sommeil(ss: seq<Noyau>, actes: seq<Appel>, p: int, ticks: int, i: nat, k: nat)
    requires Course(ss, actes) && Inv(ss[0]) && i < k <= |actes| && ss[i].elu == p && actes[i] == SysWaitClock(ticks)
    requires forall j :: i < j < k ==> actes[j] != SysKill(p) && !(actes[j].Reveils? && actes[j].ticks >= ticks)
    ensures Dort(ss[k], p, ticks) && ss[k].elu != p && p !in Chaine(ss[k], ProcActivables)
    ensures k < |actes| && actes[k].Reveils? && actes[k].ticks >= ticks ==>
      ss[k+1].elu == p || p in Chaine(ss[k+1], ProcActivables)
    decreases k
  {
    hide Inv, Dort, Faire;
    CourseInv(ss, actes, k - 1);
    CourseInv(ss, actes, k);
    Etape(ss, actes, k - 1);
    if k == i + 1 {
      DebutSommeil(ss[i], ticks);
    } else {
      Sommeil(ss, actes, p, ticks, i, k - 1);
      assert actes[k-1] == actes[k-1];
      DortReste(ss[k-1], actes[k-1], p, ticks);
    }
    DortAilleurs(ss[k], p, ticks);
    if k < |actes| && actes[k].Reveils? && actes[k].ticks >= ticks {
      Etape(ss, actes, k);
      CourseInv(ss, actes, k + 1);
      FinSommeil(ss[k], actes[k], p, ticks);
    }
  }

  // ----- What a step may write in a process that is not running ---------------------------------------

  /** `x` as another process may leave it: as it was, or released from where it waits. */
  predicate Autrui(x: Processus, y: Processus) {
    y == x
    || (EnAttente(x.etat) && y == Pret(x).(fid := y.fid, fileValue := y.fileValue, operationStatus := y.operationStatus))
  }

  lemma LibereesAutrui(s: Noyau, q: seq<int>, status: int, p: int)
    requires p in s.procs && (p in q ==> EnAttente(s.procs[p].etat))
    ensures p in Liberees(s, q, status) && Autrui(s.procs[p], Liberees(s, q, status)[p])
    ensures p !in q ==> Liberees(s, q, status)[p] == s.procs[p]
    ensures p in q ==> Liberees(s, q, status)[p] == Pret(Marque(s.procs[p], status))
  {
  }

  lemma DansFile(s: Noyau, p: int, r: Anneau)
    requires Inv(s) && p in Chaine(s, r) && FileDAttente(r)
    ensures p in s.procs && p != s.elu && EnAttente(s.procs[p].etat) && s.procs[p].chainage == Dans(r)
    ensures r.AttenteFile? <==> s.procs[p].etat == ATTEND_FILE
    ensures r.AttenteSem? <==> s.procs[p].etat == ATTEND_SEMAPHORE
  {
    hide Tri, Files, Sems, Famille, Table;
  }

  lemma MortAutrui(s: Noyau, v: int, rec: Processus, reveille: bool, p: int)
    requires Inv(s) && v in s.procs && p in s.procs && p != v
    ensures var t := Mort(s, v, rec, reveille); p in t && (t[p] == s.procs[p] || (s.procs[p].etat == ATTEND_FILS && t[p] == Pret(s.procs[p])))
  {
  }

  lemma AttenduAutrui(s: Noyau, a: Appel, cible: int, p: int)
    requires Inv(s) && Bornes(s) && Legal(s, a) && !Faire(s, a).Panique? && p in s.procs && Vif(s.procs[p]) && p != s.elu
    requires a == SysWaitpid(cible) || (a.Reprise? && Elu(s).suite == DansWaitpid(cible))
    ensures var t := Attendu(s, cible, Faire(s, a)); p in t && t[p] == s.procs[p]
  {
    hide Inv, Bornes, Faire;
    SansNull(s);
    FaireRepond(s, a);
  }

  lemma SansNull(s: Noyau)
    requires Inv(s)
    ensures -1 !in s.procs && NULL !in s.procs
  {
  }

  lemma FileAutrui(s: Noyau, a: Appel, p: int)
    requires Inv(s) && Legal(s, a) && p in s.procs && p != s.elu && (a.SysPsend? || a.SysPreceive? || a.SysPdelete? || a.SysPreset?)
    ensures p in Ecrits(s, a) && Autrui(s.procs[p], Ecrits(s, a)[p])
    ensures s.procs[p].etat != ATTEND_FILE ==> Ecrits(s, a)[p] == s.procs[p]
  {
    hide Inv, Liberees;
    var r := AttenteFile(a.fid);
    if p in Chaine(s, r) { DansFile(s, p, r); }
    LibereesAutrui(s, Chaine(s, r), 0, p);
    var q := Chaine(s, r);
    if q != [] { assert q[0] in q; DansFile(s, q[0], r); }
  }

  lemma SemAutrui(s: Noyau, a: Appel, p: int)
    requires Inv(s) && Legal(s, a) && p in s.procs && p != s.elu
    requires a.SysSdelete? || a.SysSreset? || a.SysSignal? || a.SysSignaln? || a.SysWait?
    ensures p in Ecrits(s, a) && Autrui(s.procs[p], Ecrits(s, a)[p])
    ensures s.procs[p].chainage != Dans(AttenteSem(a.sid)) ==> Ecrits(s, a)[p] == s.procs[p]
  {
    hide Inv, Liberees;
    var q := Chaine(s, AttenteSem(a.sid));
    if p in q { DansFile(s, p, AttenteSem(a.sid)); }
    match a {
      case SysSdelete(_) => LibereesAutrui(s, q, -3, p);
      case SysSreset(_, _) => LibereesAutrui(s, q, -4, p);
      case SysSignal(_) => LibereesAutrui(s, Premiers(q, 1), 1, p);
      case SysSignaln(_, n) => if n >= 0 { LibereesAutrui(s, Premiers(q, n), 1, p); }
      case _ =>
    }
  }

  lemma ReveilsAutrui(s: Noyau, a: Appel, p: int)
    requires Inv(s) && p in s.procs && p != s.elu && (a.Reveils? || a.Clavier?)
    ensures p in Ecrits(s, a) && Autrui(s.procs[p], Ecrits(s, a)[p])
    ensures s.procs[p].etat != ENDORMI && s.procs[p].etat != ATTEND_ES ==> Ecrits(s, a)[p] == s.procs[p]
  {
    hide Inv;
    if Chaine(s, ProcBloqueEs) != [] { TeteBloqueEs(s); }
  }

  /** A living process other than the running one is touched in two ways only. */
  lemma EcritsAutrui(s: Noyau, a: Appel, p: int)
    requires Inv(s) && Bornes(s) && Legal(s, a) && !Faire(s, a).Panique? && p in s.procs && Vif(s.procs[p]) && p != s.elu && a != SysKill(p)
    ensures p in Ecrits(s, a)
    ensures a.SysChprio? && a.pid == p ==> Ecrits(s, a)[p] == s.procs[p].(prio := Ecrits(s, a)[p].prio)
    ensures !(a.SysChprio? && a.pid == p) ==> Autrui(s.procs[p], Ecrits(s, a)[p])
    ensures s.procs[p].suite == DansWait && !(a.SysChprio? && a.pid == p) && !SurSaFile(s, a, p) ==> Ecrits(s, a)[p] == s.procs[p]
  {
    hide Faire, Inv, Bornes, Ecrits;
    AccordDe(s, p);
    if a.SysPdelete? || a.SysPreset? || a.SysPsend? || a.SysPreceive? {
      FileAutrui(s, a, p);
    } else if a.SysSdelete? || a.SysSreset? || a.SysSignal? || a.SysSignaln? || a.SysWait? {
      SemAutrui(s, a, p);
    } else if a.Reveils? || a.Clavier? {
      ReveilsAutrui(s, a, p);
    } else {
      ResteAutrui(s, a, p);
    }
  }

  /** A call on the semaphore that `p` waits on. */
  predicate SurSaFile(s: Noyau, a: Appel, p: int)
    requires p in s.procs
  {
    DeSemaphore(a) && !a.SysScreate? && s.procs[p].chainage == Dans(AttenteSem(a.sid))
  }

  lemma ResteAutrui(s: Noyau, a: Appel, p: int)
    requires Inv(s) && Bornes(s) && Legal(s, a) && !Faire(s, a).Panique? && p in s.procs && Vif(s.procs[p]) && p != s.elu && a != SysKill(p)
    requires !(a.SysPdelete? || a.SysPreset? || a.SysPsend? || a.SysPreceive? || a.Reveils? || a.Clavier?)
    requires !(a.SysSdelete? || a.SysSreset? || a.SysSignal? || a.SysSignaln? || a.SysWait?)
    ensures p in Ecrits(s, a)
    ensures a.SysChprio? && a.pid == p ==> Ecrits(s, a)[p] == s.procs[p].(prio := Ecrits(s, a)[p].prio)
    ensures !(a.SysChprio? && a.pid == p) ==>
      Ecrits(s, a)[p] == s.procs[p] || (s.procs[p].etat == ATTEND_FILS && Ecrits(s, a)[p] == Pret(s.procs[p]))
  {
    hide Faire, Inv, Bornes, Mort, Attendu;
    match a {
      case SysStart(_, _) => IdentifiantsLibres(s);
      case SysExit(retval) => SansAttente(s); MortAutrui(s, s.elu, Elu(s).(retval := retval), true, p);
      case SysKill(pid) => if KillValide(s, pid) { MortAutrui(s, pid, s.procs[pid], pid != s.elu, p); }
      case SysWaitpid(pid) => AttenduAutrui(s, a, pid, p);
      case Reprise(_) => if Elu(s).suite.DansWaitpid? { AttenduAutrui(s, a, Elu(s).suite.cible, p); }
      case _ =>
    }
  }

  lemma AccordDe(s: Noyau, p: int)
    requires Inv(s) && p in s.procs && p != s.elu
    ensures Accord(s.procs[p]) && s.procs[p].etat != ELU
  {
  }

  lemma InchangeDe(procs: map<int, Processus>, s': Noyau, p: int)
    requires Devient(procs, s') && p in procs && Vif(procs[p])
    ensures p in s'.procs && Inchange(procs[p], s'.procs[p])
  {
  }

  /** So while others run, a process stays alive, and keeps its call, its children and its exit
      value; its priority is changed by chprio only. */
  lemma AutruiReste(s: Noyau, a: Appel, p: int)
    requires Inv(s) && Bornes(s) && Legal(s, a) && !Faire(s, a).Panique? && p in s.procs && Vif(s.procs[p]) && p != s.elu && a != SysKill(p)
    ensures var s' := Faire(s, a).s;
      && p in s'.procs && Vif(s'.procs[p]) && s'.procs[p].suite == s.procs[p].suite && s'.procs[p].fils == s.procs[p].fils
      && s'.procs[p].retval == s.procs[p].retval && s'.procs[p].secReveille == s.procs[p].secReveille
      && (!(a.SysChprio? && a.pid == p) ==> s'.procs[p].prio == s.procs[p].prio)
  {
    hide Faire, Inv, Bornes, Devient, Ecrits;
    InvElu(s);
    EcritsAutrui(s, a, p);
    FaireEcrits(s, a);
    InchangeDe(Ecrits(s, a), Faire(s, a).s, p);
  }

  // ----- A blocked wait -------------------------------------------------------------------------------

  predicate SurSemaphore(s: Noyau, p: int, sid: int) {
    p in s.procs && s.procs[p].etat == ATTEND_SEMAPHORE && s.procs[p].chainage == Dans(AttenteSem(sid)) && s.procs[p].suite == DansWait
  }

  /** The step ends the wait of `p` on semaphore `sid`: a signal that releases it, or the end of the
      semaphore or of its count. */
  predicate Delivre(s: Noyau, a: Appel, p: int, sid: int) {
    SurSemaphore(s, p, sid)
    && (((a.SysSignal? || a.SysSignaln?) && a.sid == sid && p in Sortants(s, a, sid))
        || a == SysSdelete(sid) || (a.SysSreset? && a.sid == sid && a.count >= 0))
  }

  /** The status it gets. */
  function Verdict(a: Appel): int {
    match a
    case SysSdelete(_) => -3
    case SysSreset(_, _) => -4
    case _ => 1
  }

  /** Released from wait, with its answer. */
  predicate SortiDeWait(s: Noyau, p: int, status: int) {
    p in s.procs && Actif(s.procs[p]) && s.procs[p].suite == DansWait && s.procs[p].operationStatus == status
  }

  lemma SortantsDe(s: Noyau, a: Appel, sid: int)
    requires Inv(s) && Bornes(s) && Legal(s, a) && !Faire(s, a).Panique? && sid in s.sems && (a.SysSignal? || a.SysSignaln?) && a.sid == sid
    ensures a.SysSignal? ==> Sortants(s, a, sid) == if s.sems[sid] < SHORTINT_MAX then Premiers(Chaine(s, AttenteSem(sid)), 1) else []
    ensures a.SysSignaln? ==> Sortants(s, a, sid) == if 0 < a.n <= SHORTINT_MAX - s.sems[sid] then Premiers(Chaine(s, AttenteSem(sid)), a.n) else []
  {
    hide Inv, Bornes, Signal, Signaln;
    SemBornee(s, sid);
    SansAttente(s);
    FaireRepond(s, a);
  }

  /** What the calls on its own semaphore write in a waiter. */
  lemma EcritsAttente(s: Noyau, a: Appel, p: int, sid: int)
    requires Inv(s) && Bornes(s) && Legal(s, a) && !Faire(s, a).Panique? && SurSemaphore(s, p, sid) && p != s.elu
    requires DeSemaphore(a) && !a.SysScreate? && a.sid == sid
    ensures p in Ecrits(s, a)
    ensures Ecrits(s, a)[p] == if Delivre(s, a, p, sid) then Pret(s.procs[p].(operationStatus := Verdict(a))) else s.procs[p]
  {
    hide Inv, Bornes, Liberees, Faire, Sortants;
    EnFile(s, p, sid);
    if a.SysSignal? || a.SysSignaln? {
      EcritsSignal(s, a, p, sid);
    } else {
      var q := Chaine(s, AttenteSem(sid));
      LibereesAutrui(s, q, -3, p);
      LibereesAutrui(s, q, -4, p);
    }
  }

  lemma EcritsSignal(s: Noyau, a: Appel, p: int, sid: int)
    requires Inv(s) && Bornes(s) && Legal(s, a) && !Faire(s, a).Panique? && SurSemaphore(s, p, sid) && sid in s.sems && p != s.elu
    requires (a.SysSignal? || a.SysSignaln?) && a.sid == sid
    ensures p in Ecrits(s, a)
    ensures Ecrits(s, a)[p] == if p in Sortants(s, a, sid) then Pret(s.procs[p].(operationStatus := 1)) else s.procs[p]
  {
    hide Inv, Bornes, Liberees, Faire, Sortants, Premiers;
    var q := Chaine(s, AttenteSem(sid));
    SortantsDe(s, a, sid);
    if a.SysSignal? {
      LibereesAutrui(s, Premiers(q, 1), 1, p);
    } else if a.n >= 0 {
      LibereesAutrui(s, Premiers(q, a.n), 1, p);
      PremiersZero(q);
    }
  }

  lemma PremiersZero(q: seq<int>)
    ensures Premiers(q, 0) == []
  {
  }

  lemma EnFile(s: Noyau, p: int, sid: int)
    requires Inv(s) && SurSemaphore(s, p, sid)
    ensures p in Chaine(s, AttenteSem(sid)) && sid in s.sems && p != s.elu
  {
  }

  /** One step, seen by a process that waits on a semaphore ... */
  lemma AttenteEvolue(s: Noyau, a: Appel, p: int, sid: int)
    requires Inv(s) && Bornes(s) && Legal(s, a) && !Faire(s, a).Panique? && SurSemaphore(s, p, sid) && a != SysKill(p)
    ensures if Delivre(s, a, p, sid) then SortiDeWait(Faire(s, a).s, p, Verdict(a)) else SurSemaphore(Faire(s, a).s, p, sid)
  {
    hide Faire, Inv, Bornes, Devient, Ecrits, Sortants;
    InvElu(s);
    EnFile(s, p, sid);
    EcritsAutrui(s, a, p);
    if DeSemaphore(a) && !a.SysScreate? && a.sid == sid { EcritsAttente(s, a, p, sid); }
    if a.SysChprio? && a.pid == p { EcritsChprio(s, a, p); }
    FaireEcrits(s, a);
    InchangeDe(Ecrits(s, a), Faire(s, a).s, p);
  }

  lemma EcritsChprio(s: Noyau, a: Appel, p: int)
    requires s.elu in s.procs && p in s.procs && a.SysChprio? && a.pid == p
    ensures p in Ecrits(s, a) && Ecrits(s, a)[p] == s.procs[p].(prio := Ecrits(s, a)[p].prio)
  {
  }

  /** ... and by one that has been released. */
  lemma SortieEvolue(s: Noyau, a: Appel, p: int, status: int)
    requires Inv(s) && Bornes(s) && Legal(s, a) && !Faire(s, a).Panique? && SortiDeWait(s, p, status) && a != SysKill(p)
    requires !(a.Reprise? && p == s.elu)
    ensures SortiDeWait(Faire(s, a).s, p, status)
  {
    hide Faire, Inv, Bornes, Devient, Ecrits;
    InvElu(s);
    PretLibre(s, p);
    if p != s.elu {
      EcritsAutrui(s, a, p);
      if a.SysChprio? && a.pid == p { EcritsChprio(s, a, p); }
      FaireEcrits(s, a);
      InchangeDe(Ecrits(s, a), Faire(s, a).s, p);
    }
  }

  lemma PretLibre(s: Noyau, p: int)
    requires Inv(s) && p in s.procs && Actif(s.procs[p])
    ensures s.procs[p].chainage == if p == s.elu then Libre else Dans(ProcActivables)
  {
  }

  /** Steps i to j: `p` blocks in wait at step i, and first runs again at step j, not having been
      killed in between. */
  ghost predicate AttenteLongue(ss: seq<Noyau>, actes: seq<Appel>, p: int, i: nat, j: nat) {
    && Course(ss, actes) && Inv(ss[0]) && Bornes(ss[0]) && i < j < |actes|
    && ss[i].elu == p && actes[i].SysWait? && Legal(ss[i], actes[i]) && Faire(ss[i], actes[i]).Suspend?
    && ss[j].elu == p && actes[j].Reprise?
    && forall k :: i < k < j ==> actes[k] != SysKill(p) && !(actes[k].Reprise? && ss[k].elu == p)
  }

  /** Before step k, either nothing has happened to the wait (e < 0), or exactly one event has, and
      the status of the process is its outcome. */
  ghost predicate Deroule(ss: seq<Noyau>, actes: seq<Appel>, p: int, sid: int, i: nat, k: nat, e: int) {
    && i < k < |ss| == |actes| + 1 && (e < 0 || i < e < k)
    && (forall x :: i < x < k && x != e ==> !Delivre(ss[x], actes[x], p, sid))
    && if e < 0 then SurSemaphore(ss[k], p, sid) else Delivre(ss[e], actes[e], p, sid) && SortiDeWait(ss[k], p, Verdict(actes[e]))
  }

  lemma DebutAttente(s: Noyau, a: Appel)
    requires Inv(s) && Bornes(s) && Legal(s, a) && a.SysWait? && Faire(s, a).Suspend?
    ensures SurSemaphore(Faire(s, a).s, s.elu, a.sid)
  {
    hide Faire, Inv, Bornes, Devient;
    FaireRepond(s, a);
    FaireEcrits(s, a);
    SemBornee(s, a.sid);
    InchangeDe(Ecrits(s, a), Faire(s, a).s, s.elu);
  }

  lemma DerouleSuivant(ss: seq<Noyau>, actes: seq<Appel>, p: int, sid: int, i: nat, k: nat, e: int) returns (e': int)
    requires Deroule(ss, actes, p, sid, i, k, e) && k < |actes| && Inv(ss[k]) && Bornes(ss[k])
    requires Legal(ss[k], actes[k]) && !Faire(ss[k], actes[k]).Panique? && Faire(ss[k], actes[k]).s == ss[k+1]
    requires actes[k] != SysKill(p) && !(actes[k].Reprise? && p == ss[k].elu)
    ensures Deroule(ss, actes, p, sid, i, k + 1, e')
  {
    hide Inv, Bornes, Faire, Delivre, SurSemaphore, SortiDeWait;
    e' := e;
    if e < 0 {
      AttenteEvolue(ss[k], actes[k], p, sid);
      if Delivre(ss[k], actes[k], p, sid) { e' := k; }
    } else {
      SortieEvolue(ss[k], actes[k], p, Verdict(actes[e]));
      SortiPasDelivre(ss[k], actes[k], p, sid, Verdict(actes[e]));
    }
  }

  lemma SortiPasDelivre(s: Noyau, a: Appel, p: int, sid: int, status: int)
    requires SortiDeWait(s, p, status)
    ensures !Delivre(s, a, p, sid)
  {
  }

  lemma {:induction false} AttendreWait(ss: seq<Noyau>, actes: seq<Appel>, p: int, i: nat, j: nat, k: nat) returns (e: int)
    requires AttenteLongue(ss, actes, p, i, j) && i < k <= j
    ensures Deroule(ss, actes, p, actes[i].sid, i, k, e)
    decreases k
  {
    hide Inv, Bornes, Faire, Delivre, SurSemaphore, SortiDeWait, Legal, Course;
    CourseLongueur(ss, actes);
    CourseBornes(ss, actes, k - 1);
    Etape(ss, actes, k - 1);
    if k == i + 1 {
      e := -1;
      DebutAttente(ss[i], actes[i]);
    } else {
      var e0 := AttendreWait(ss, actes, p, i, j, k - 1);
      assert actes[k-1] == actes[k-1];
      e := DerouleSuivant(ss, actes, p, actes[i].sid, i, k - 1, e0);
    }
  }

  lemma FinAttente(s: Noyau, a: Appel, p: int, status: int)
    requires Inv(s) && Bornes(s) && Legal(s, a) && !Faire(s, a).Panique? && a.Reprise? && p == s.elu && SortiDeWait(s, p, status)
    ensures Faire(s, a).Rend? && Faire(s, a).code == if status < 0 then status else 0
  {
    hide Faire, Inv, Bornes;
    FaireRepond(s, a);
  }

  /** wait blocked, then resumed: exactly one event has ended it; it answers 0 if and only if that
      was a signal or signaln that released it, -3 if and only if the semaphore was deleted, -4 if
      and only if its count was set afresh. */
  lemma WaitBloque(ss: seq<Noyau>, actes: seq<Appel>, p: int, i: nat, j: nat) returns (e: nat)
    requires AttenteLongue(ss, actes, p, i, j)
    ensures var sid := actes[i].sid;
      && i < e < j && Delivre(ss[e], actes[e], p, sid) && (forall k :: i < k < j && k != e ==> !Delivre(ss[k], actes[k], p, sid))
      && ss[j].elu in ss[j].procs && Faire(ss[j], actes[j]).Rend?
      && var code := Faire(ss[j], actes[j]).code;
         && (code == 0 || code == -3 || code == -4)
         && (code == 0 <==> (actes[e].SysSignal? || actes[e].SysSignaln?) && actes[e].sid == sid && p in Sortants(ss[e], actes[e], sid))
         && (code == -3 <==> actes[e] == SysSdelete(sid))
         && (code == -4 <==> actes[e].SysSreset? && actes[e].sid == sid)
  {
    hide Inv, Bornes, Faire, SurSemaphore, Course;
    var x := AttendreWait(ss, actes, p, i, j, j);
    CourseLongueur(ss, actes);
    CourseBornes(ss, actes, j);
    Etape(ss, actes, j);
    InvElu(ss[j]);
    EluPasSurSem(ss[j], actes[i].sid);
    e := x;
    FinAttente(ss[j], actes[j], p, Verdict(actes[e]));
  }

  lemma EluPasSurSem(s: Noyau, sid: int)
    requires Inv(s)
    ensures !SurSemaphore(s, s.elu, sid)
  {
  }

  // ----- A father in waitpid --------------------------------------------------------------------------

  predicate EnWaitpid(s: Noyau, p: int, cible: int) {
    p in s.procs && Vif(s.procs[p]) && s.procs[p].suite == DansWaitpid(cible)
  }

  lemma WaitpidReste(s: Noyau, a: Appel, p: int, cible: int)
    requires Inv(s) && Bornes(s) && Legal(s, a) && !Faire(s, a).Panique? && EnWaitpid(s, p, cible) && a != SysKill(p)
    requires p == s.elu ==> Faire(s, a).Suspend?
    ensures EnWaitpid(Faire(s, a).s, p, cible)
  {
    hide Faire, Inv, Bornes, Devient;
    InvElu(s);
    if p != s.elu {
      AutruiReste(s, a, p);
    } else {
      FaireEcrits(s, a);
      InchangeDe(Ecrits(s, a), Faire(s, a).s, p);
    }
  }

  lemma DebutWaitpid(s: Noyau, a: Appel)
    requires Inv(s) && Bornes(s) && Legal(s, a) && a.SysWaitpid? && Faire(s, a).Suspend?
    ensures EnWaitpid(Faire(s, a).s, s.elu, a.pid)
  {
    hide Faire, Inv, Bornes, Devient;
    FaireEcrits(s, a);
    InchangeDe(Ecrits(s, a), Faire(s, a).s, s.elu);
  }

  /** Steps i to j: `p` goes to sleep in waitpid at step i, and returns from it at step j, not having
      been killed; each time it runs in between, it goes back to sleep. */
  ghost predicate VeilleLongue(ss: seq<Noyau>, actes: seq<Appel>, p: int, i: nat, j: nat) {
    && Course(ss, actes) && Inv(ss[0]) && Bornes(ss[0]) && i < j < |actes|
    && ss[i].elu == p && actes[i].SysWaitpid? && Legal(ss[i], actes[i]) && Faire(ss[i], actes[i]).Suspend?
    && ss[j].elu == p && Legal(ss[j], actes[j]) && actes[j].Reprise? && Faire(ss[j], actes[j]).Rend?
    && forall k :: i < k < j ==> actes[k] != SysKill(p) && (ss[k].elu == p ==> Legal(ss[k], actes[k]) && Faire(ss[k], actes[k]).Suspend?)
  }

  lemma {:induction false} Veiller(ss: seq<Noyau>, actes: seq<Appel>, p: int, i: nat, j: nat, k: nat)
    requires VeilleLongue(ss, actes, p, i, j) && i < k <= j
    ensures k < |ss| && EnWaitpid(ss[k], p, actes[i].pid)
    decreases k
  {
    hide Inv, Bornes, Faire, EnWaitpid, Legal, Course;
    CourseLongueur(ss, actes);
    CourseBornes(ss, actes, k - 1);
    Etape(ss, actes, k - 1);
    if k == i + 1 {
      DebutWaitpid(ss[i], actes[i]);
    } else {
      Veiller(ss, actes, p, i, j, k - 1);
      assert actes[k-1] == actes[k-1];
      WaitpidReste(ss[k-1], actes[k-1], p, actes[i].pid);
    }
  }

  lemma FinWaitpid(s: Noyau, a: Appel, p: int, cible: int)
    requires Inv(s) && Bornes(s) && Legal(s, a) && Faire(s, a).Rend? && a.Reprise? && p == s.elu && EnWaitpid(s, p, cible)
    ensures var i := Faire(s, a);
      && Recueillable(s, cible, i.code) && (cible < 0 ==> PremierMort(s, Elu(s).fils, i.code))
      && i.valeur == s.procs[i.code].retval && i.code !in i.s.procs
  {
    hide Faire, Inv, Bornes;
    FaireRepond(s, a);
  }

  /** A waitpid that had to sleep returns the child it was called for, or, if it was called for any,
      the first of the caller's children that is dead; the value is the one that child left, and
      the child is gone. */
  lemma WaitpidLong(ss: seq<Noyau>, actes: seq<Appel>, p: int, i: nat, j: nat)
    requires VeilleLongue(ss, actes, p, i, j)
    ensures var r, cible := Faire(ss[j], actes[j]), actes[i].pid;
      && Recueillable(ss[j], cible, r.code)
      && (if cible >= 0 then r.code == cible else PremierMort(ss[j], ss[j].procs[p].fils, r.code))
      && r.valeur == ss[j].procs[r.code].retval && r.code !in r.s.procs
  {
    hide Inv, Bornes, Faire, EnWaitpid, Course;
    Veiller(ss, actes, p, i, j, j);
    CourseBornes(ss, actes, j);
    FinWaitpid(ss[j], actes[j], p, actes[i].pid);
  }

  // ----- A queue nobody reads -------------------------------------------------------------------------

  predicate Recoit(x: Processus, fid: int) {
    x.etat == ATTEND_FILE && x.fid == fid && x.suite == DansPreceive
  }

  lemma EcritsMort(s: Noyau, a: Appel, p: int)
    requires Inv(s) && Bornes(s) && Legal(s, a) && !Faire(s, a).Panique? && p in s.procs && !Vif(s.procs[p])
    ensures p in Ecrits(s, a) && !Vif(Ecrits(s, a)[p])
  {
    hide Faire, Inv, Bornes, Ecrits;
    SansAttente(s);
    AccordDe(s, p);
    if a.SysPdelete? || a.SysPreset? || a.SysPsend? || a.SysPreceive? {
      FileAutrui(s, a, p);
    } else if a.SysSdelete? || a.SysSreset? || a.SysSignal? || a.SysSignaln? || a.SysWait? {
      SemAutrui(s, a, p);
    } else if a.Reveils? || a.Clavier? {
      ReveilsAutrui(s, a, p);
    } else {
      ResteMort(s, a, p);
    }
  }

  lemma ResteMort(s: Noyau, a: Appel, p: int)
    requires Inv(s) && Legal(s, a) && p in s.procs && !Vif(s.procs[p]) && p != s.elu
    requires !(a.SysPdelete? || a.SysPreset? || a.SysPsend? || a.SysPreceive? || a.Reveils? || a.Clavier?)
    requires !(a.SysSdelete? || a.SysSreset? || a.SysSignal? || a.SysSignaln? || a.SysWait?)
    ensures p in Ecrits(s, a) && !Vif(Ecrits(s, a)[p])
  {
    hide Faire, Inv, Bornes, Mort;
    match a {
      case SysStart(_, _) => IdentifiantsLibres(s);
      case SysExit(retval) => SansAttente(s); MortAutrui(s, s.elu, Elu(s).(retval := retval), true, p);
      case SysKill(pid) => if KillValide(s, pid) { MortAutrui(s, pid, s.procs[pid], pid != s.elu, p); }
      case _ =>
    }
  }

  /** The running process, once it has made its step. */
  lemma EcritsElu(s: Noyau, a: Appel, fid: int)
    requires Inv(s) && Legal(s, a) && a != SysPreceive(fid)
    ensures s.elu in Ecrits(s, a) && !Recoit(Ecrits(s, a)[s.elu], fid)
  {
    hide Faire, Inv, Premiers;
    SansAttente(s);
    IdentifiantsLibres(s);
    if a.SysPsend? || a.SysPreceive? { TeteAutre(s, a.fid); }
  }

  lemma TeteAutre(s: Noyau, fid: int)
    requires Inv(s)
    ensures var q := Chaine(s, AttenteFile(fid)); q != [] ==> q[0] in s.procs && q[0] != s.elu
  {
    if Chaine(s, AttenteFile(fid)) != [] { TeteBloquee(s, AttenteFile(fid)); }
  }

  lemma EcritsTue(s: Noyau, p: int)
    requires s.elu in s.procs && p in s.procs && KillValide(s, p)
    ensures p in Ecrits(s, SysKill(p)) && (Ecrits(s, SysKill(p))[p].etat == ZOMBIE || Ecrits(s, SysKill(p))[p].etat == MOURANT)
  {
  }

  lemma EcritsCles(s: Noyau, a: Appel, p: int)
    requires Inv(s) && Bornes(s) && Legal(s, a) && !Faire(s, a).Panique? && p in Ecrits(s, a) && p !in s.procs
    ensures !Recoit(Ecrits(s, a)[p], 0) && Ecrits(s, a)[p].etat != ATTEND_FILE
  {
    hide Faire, Inv, Bornes, Premiers;
    SansAttente(s);
  }

  /** Only a preceive puts somebody in wait for a message. */
  lemma EcritsReceveur(s: Noyau, a: Appel, p: int, fid: int)
    requires Inv(s) && Bornes(s) && Legal(s, a) && !Faire(s, a).Panique? && a != SysPreceive(fid)
    requires p in Ecrits(s, a) && Recoit(Ecrits(s, a)[p], fid)
    ensures p in s.procs && Recoit(s.procs[p], fid)
  {
    hide Faire, Inv, Bornes, Ecrits;
    SansAttente(s);
    if p !in s.procs {
      EcritsCles(s, a, p);
    } else if p == s.elu {
      EcritsElu(s, a, fid);
    } else if !Vif(s.procs[p]) {
      EcritsMort(s, a, p);
    } else if a == SysKill(p) && KillValide(s, p) {
      EcritsTue(s, p);
    } else if a == SysKill(p) {
      EcritsRefus(s, a);
    } else {
      EcritsAutrui(s, a, p);
    }
  }

  lemma EcritsRefus(s: Noyau, a: Appel)
    requires s.elu in s.procs && a.SysKill? && !KillValide(s, a.pid)
    ensures Ecrits(s, a) == s.procs
  {
  }

  lemma SansReceveur(s: Noyau, a: Appel, fid: int)
    requires Inv(s) && Bornes(s) && Legal(s, a) && !Faire(s, a).Panique? && a != SysPreceive(fid) && Recepteurs(s, fid) == {}
    ensures Recepteurs(Faire(s, a).s, fid) == {}
  {
    hide Faire, Inv, Bornes, Ecrits, Devient, Recepteurs;
    InvElu(s);
    FaireEcrits(s, a);
    var s' := Faire(s, a).s;
    forall p | p in s'.procs ensures !Recoit(s'.procs[p], fid) {
      DevientVu(Ecrits(s, a), s', p);
      if Recoit(Ecrits(s, a)[p], fid) {
        EcritsReceveur(s, a, p, fid);
        Receveur(s, p, fid);
      }
    }
    PasDeReceveur(s', fid);
  }

  lemma Receveur(s: Noyau, p: int, fid: int)
    requires p in s.procs && Recoit(s.procs[p], fid)
    ensures p in Recepteurs(s, fid)
  {
  }

  lemma PasDeReceveur(s: Noyau, fid: int)
    requires forall p :: p in s.procs ==> !Recoit(s.procs[p], fid)
    ensures Recepteurs(s, fid) == {}
  {
    assert forall p :: p !in Recepteurs(s, fid);
  }

  lemma DevientVu(procs: map<int, Processus>, s': Noyau, p: int)
    requires Devient(procs, s') && p in s'.procs
    ensures p in procs && forall fid :: Recoit(s'.procs[p], fid) ==> Recoit(procs[p], fid)
  {
  }

  /** The steps that read queue `fid` or empty it. */
  predicate Vide(a: Appel, fid: int) {
    a == SysPreceive(fid) || a == SysPreset(fid) || a == SysPdelete(fid)
  }

  /** How many of the first `n` steps are sends to queue `fid`. */
  function Envois(actes: seq<Appel>, fid: int, n: nat): nat
    requires n <= |actes|
  {
    if n == 0 then 0 else Envois(actes, fid, n - 1) + if actes[n-1].SysPsend? && actes[n-1].fid == fid then 1 else 0
  }

  /** A queue of capacity `c` that holds the first `n` messages sent to it, as many as there is
      room for, and that nobody waits to read. */
  ghost predicate Remplie(s: Noyau, fid: int, c: int, n: nat) {
    fid in s.files && s.files[fid].maxMsg == c && |s.files[fid].queueMsg| == (if n <= c then n else c) && Recepteurs(s, fid) == {}
  }

  lemma RemplieSuite(s: Noyau, a: Appel, fid: int, c: int, n: nat)
    requires Inv(s) && Bornes(s) && Legal(s, a) && !Faire(s, a).Panique? && !Vide(a, fid) && Remplie(s, fid, c, n)
    ensures Remplie(Faire(s, a).s, fid, c, if a.SysPsend? && a.fid == fid then n + 1 else n)
    ensures a.SysPsend? && a.fid == fid ==> if n < c then Faire(s, a).Rend? && Faire(s, a).code == 0 else Faire(s, a).Suspend?
  {
    hide Faire, Inv, Bornes, Recepteurs, Acceptes;
    InvElu(s);
    Places(s, fid);
    FaireTables(s, a);
    FaireRepond(s, a);
    SansReceveur(s, a, fid);
  }

  /** From the pcreate of a queue of capacity `c`, and as long as nobody reads it or resets it:
      exactly the first `c` sends to it answer 0 at once, and every later one blocks. */
  lemma {:induction false} Capacite(ss: seq<Noyau>, actes: seq<Appel>, c: int, fid: int, n: nat)
    requires Course(ss, actes) && Inv(ss[0]) && Bornes(ss[0]) && 0 < n <= |actes| && actes[0] == SysPcreate(c)
    requires ss[0].elu in ss[0].procs && Faire(ss[0], actes[0]).Rend? && Faire(ss[0], actes[0]).code == fid && fid >= 0
    requires forall k :: 0 < k < n ==> !Vide(actes[k], fid)
    ensures Remplie(ss[n], fid, c, Envois(actes, fid, n))
    ensures n < |actes| && actes[n].SysPsend? && actes[n].fid == fid ==>
      && ss[n].elu in ss[n].procs
      && if Envois(actes, fid, n) < c then Faire(ss[n], actes[n]).Rend? && Faire(ss[n], actes[n]).code == 0 else Faire(ss[n], actes[n]).Suspend?
    decreases n
  {
    hide Inv, Bornes, Faire, Remplie, Course;
    CourseLongueur(ss, actes);
    CourseBornes(ss, actes, n - 1);
    Etape(ss, actes, n - 1);
    if n == 1 {
      FileNeuve(ss[0], actes[0], c);
      assert Envois(actes, fid, 0) == 0;
    } else {
      Capacite(ss, actes, c, fid, n - 1);
      assert actes[n-1] == actes[n-1];
      RemplieSuite(ss[n-1], actes[n-1], fid, c, Envois(actes, fid, n - 1));
    }
    if n < |actes| && actes[n].SysPsend? && actes[n].fid == fid {
      CourseBornes(ss, actes, n);
      Etape(ss, actes, n);
      InvElu(ss[n]);
      RemplieSuite(ss[n], actes[n], fid, c, Envois(actes, fid, n));
    }
  }

  lemma FileNeuve(s: Noyau, a: Appel, c: int)
    requires Inv(s) && Legal(s, a) && a == SysPcreate(c) && Faire(s, a).code >= 0
    ensures Remplie(Faire(s, a).s, Faire(s, a).code, c, 0)
  {
    hide Inv, Pcreate;
    InvElu(s);
    PcreateEffet(s, c);
    PcreateInv(s, c);
    PersonneEnAttente(Pcreate(s, c).s, Pcreate(s, c).code);
  }

  lemma PersonneEnAttente(s: Noyau, fid: int)
    requires Inv(s) && Chaine(s, AttenteFile(fid)) == []
    ensures Recepteurs(s, fid) == {}
  {
    hide Inv, Recepteurs, Emetteurs;
    AttenteEnsembles(s, fid);
    assert forall p :: p !in Recepteurs(s, fid) + Emetteurs(s, fid);
    assert Recepteurs(s, fid) <= Recepteurs(s, fid) + Emetteurs(s, fid);
  }

  // ----- Turns ----------------------------------------------------------------------------------------

  /** `y` stands before `x` in the ready queue. */
  ghost predicate Devance(s: Noyau, y: int, x: int) {
    var q := Chaine(s, ProcActivables);
    x in q && y in q && SlotOf(q, y) < SlotOf(q, x)
  }

  lemma DevanceReste(s: Noyau, s': Noyau, p: int, y: int, x: int)
    requires OrdreAutres(s, s', p) && x != p && y != p && Devance(s, y, x)
    requires var q2 := Chaine(s', ProcActivables);
      x in q2 && y in q2 && CleDe(s'.procs, Prio, x) <= CleDe(s'.procs, Prio, y)
    ensures Devance(s', y, x)
  {
    var q2 := Chaine(s', ProcActivables);
    if SlotOf(q2, x) < SlotOf(q2, y) {
      assert Lt(SlotOf(q2, x), SlotOf(q2, y));
    }
  }

  /** Over a run, a process that stays ready is never overtaken by one that stays ready too and never
      outranks it: neither by waking, nor by switching, nor when somebody else's priority changes. */
  lemma {:induction false} JamaisDouble(ss: seq<Noyau>, actes: seq<Appel>, x: int, y: int, i: nat, j: nat)
    requires Course(ss, actes) && Inv(ss[0]) && i <= j <= |actes| && Devance(ss[i], y, x)
    requires forall k {:trigger ss[k]} :: i < k <= j ==>
      x in Chaine(ss[k], ProcActivables) && y in Chaine(ss[k], ProcActivables) && CleDe(ss[k].procs, Prio, x) <= CleDe(ss[k].procs, Prio, y)
    requires forall k :: i <= k < j ==> !(actes[k].SysChprio? && (actes[k].pid == x || actes[k].pid == y))
    ensures Devance(ss[j], y, x)
    decreases j
  {
    hide Inv, Faire, Devance, Ordre, OrdreAutres;
    if j > i {
      JamaisDouble(ss, actes, x, y, i, j - 1);
      CourseInv(ss, actes, j - 1);
      Etape(ss, actes, j - 1);
      FaireOrdre(ss[j-1], actes[j-1]);
      var p := if actes[j-1].SysChprio? then actes[j-1].pid else NULL;
      if !actes[j-1].SysChprio? { OrdreDonc(ss[j-1], ss[j], NULL); }
      CourseInv(ss, actes, j);
      PasNull(ss[j]);
      assert actes[j-1] == actes[j-1];
      DevanceReste(ss[j-1], ss[j], p, y, x);
    }
  }

  lemma PasNull(s: Noyau)
    requires Inv(s)
    ensures NULL !in Chaine(s, ProcActivables)
  {
  }
}
