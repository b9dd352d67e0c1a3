/** The answer a suspended call ends up with: psend and preceive seen from the process that
    blocked in them, and the exit values waitpid returns. */
module KernelAnswers {
  import opened PriorityQueue
  import opened KernelState
  import opened KernelMoves
  import opened KernelReap
  import opened KernelSched
  import opened KernelWake
  import opened KernelFiles
  import opened KernelSem
  import opened KernelStart
  import opened KernelDeath
  import opened KernelClock
  import opened KernelFollow
  import opened KernelSteps
  import opened KernelTraffic

  /** The processes a step is about. */
  ghost function Sauf(s: Noyau, a: Appel): set<int>
    requires s.elu in s.procs
  {
    match a
    case SysStart(prio, alloue) => {s.elu} + if Start(s, prio, alloue).Rend? then {Start(s, prio, alloue).code} else {}
    case SysChprio(pid, _, _) => {pid}
    case SysExit(_) => {s.elu} + PereEnAttente(s, Elu(s).pere)
    case SysKill(pid) => Touches(s, pid)
    case SysPsend(fid, _) => {s.elu} + Premier(s, fid, true)
    case SysPreceive(fid) => {s.elu} + Premier(s, fid, false)
    case SysPreset(fid) => if fid in s.files then Membres(Chaine(s, AttenteFile(fid))) else {}
    case SysPdelete(fid) => if fid in s.files then Membres(Chaine(s, AttenteFile(fid))) else {}
    case SysSdelete(_) => SurSem(s)
    case SysSreset(_, _) => SurSem(s)
    case SysSignal(_) => SurSem(s)
    case SysSignaln(_, _) => SurSem(s)
    case Reveils(ticks) => Dus(s, ticks)
    case Tranche => {}
    case Clavier => PremierEs(s)
    case _ => {s.elu}
  }

  lemma ReprendreSuivi(s: Noyau, pret: bool)
    requires Inv(s) && s.elu != IDLE
    ensures !Reprendre(s, pret).Panique? && Suivi(s, Reprendre(s, pret).s, {s.elu})
  {
    hide BoucleWaitpid, ConsReadBloque, Inv, Suivi, Maj;
    SansAttente(s);
    var s1 := Maj(s, s.elu, Elu(s).(suite := Utilisateur));
    MajSuiteSuivi(s);
    SuiviRien(s, s, {s.elu});
    match Elu(s).suite {
      case DansWaitpid(cible) =>
        CibleDuFils(s);
        BoucleWaitpidSuivi(s, cible);
      case DansConsRead => FormeSuspensions(s, 0); SuspensionsSuivi(s, 0);
      case _ =>
    }
  }

  lemma MajSuiteSuivi(s: Noyau)
    requires s.elu in s.procs
    ensures Suivi(s, Maj(s, s.elu, Elu(s).(suite := Utilisateur)), {s.elu})
    ensures ConsReadLu(s).s == Maj(s, s.elu, Elu(s).(suite := Utilisateur))
  {
  }

  lemma WaitpidSuivi(s: Noyau, pid: int)
    requires Inv(s) && s.elu != IDLE
    ensures !Waitpid(s, pid).Panique? && Suivi(s, Waitpid(s, pid).s, {s.elu})
  {
    hide BoucleWaitpid, Waitpid, Suivi;
    WaitpidInv(s, pid);
    SuiviRien(s, s, {s.elu});
    if if pid >= 0 then pid in Elu(s).fils else Elu(s).fils != [] {
      BoucleWaitpidSuivi(s, pid);
    }
  }

  lemma TrancheSuivi(s: Noyau)
    requires Inv(s)
    ensures Suivi(s, Ordonnanceur(s), {})
  {
    EluSauf(s);
    SuiviOrdonnanceur(s);
  }

  lemma SignalnSuivi(s: Noyau, sid: int, n: int)
    requires Inv(s) && !Signaln(s, sid, n).Panique?
    ensures Suivi(s, Signaln(s, sid, n).s, SurSem(s))
  {
    hide Signaux, Inv, Suivi, SurSem;
    SuiviRien(s, s, SurSem(s));
    if sid in s.sems && s.sems[sid] <= SHORTINT_MAX - n { SignauxSuivi(s, sid, n); }
  }

  lemma FilesSuivi(s: Noyau, a: Appel)
    requires Inv(s) && Legal(s, a) && !Faire(s, a).Panique?
    requires a.SysPdelete? || a.SysPreset? || a.SysPsend? || a.SysPreceive?
    ensures Suivi(s, Faire(s, a).s, Sauf(s, a))
  {
    hide Pdelete, Preset, Psend, Preceive, Inv, Suivi, Premier, Membres;
    SuiviRien(s, s, Sauf(s, a));
    if a.fid !in s.files {
      FileAbsente(s, a.fid, if a.SysPsend? then a.message else 0);
    } else {
      match a {
        case SysPdelete(fid) => PdeleteSuivi(s, fid);
        case SysPreset(fid) => PresetSuivi(s, fid);
        case SysPsend(fid, m) => PsendSuivi(s, fid, m);
        case SysPreceive(fid) => PreceiveSuivi(s, fid);
        case _ =>
      }
    }
  }

  /** Every step leaves everybody else alone. */
  lemma FaireSuivi(s: Noyau, a: Appel)
    requires Inv(s) && Legal(s, a) && !Faire(s, a).Panique?
    ensures Suivi(s, Faire(s, a).s, Sauf(s, a))
  {
    hide Start, Chprio, Exit, Kill, Waitpid, WaitClock, ConsReadBloque, ConsReadLu, Pcreate, Pdelete, Preset, Psend, Preceive;
    hide Screate, Sdelete, Sreset, Signal, Signaln, TryWait, Wait, Reprendre, VerifieReveille, Ordonnanceur, VerifieEs;
    hide Inv, Suivi, SurSem, Premier, Membres, Touches, PereEnAttente, Dus, PremierEs;
    match a {
      case SysStart(prio, alloue) => StartSuivi(s, prio, alloue); assert {Start(s, prio, alloue).code, s.elu} == Sauf(s, a);
      case SysChprio(pid, newPrio, mot) => ChprioSuivi(s, pid, newPrio, mot);
      case SysExit(retval) => ExitSuivi(s, retval);
      case SysKill(pid) => KillSuivi(s, pid);
      case SysWaitpid(pid) => WaitpidSuivi(s, pid);
      case SysWaitClock(ticks) => SuspensionsSuivi(s, ticks);
      case SysConsRead(pret) => SuspensionsSuivi(s, 0); MajSuiteSuivi(s);
      case SysSdelete(sid) => SdeleteSuivi(s, sid);
      case SysSreset(sid, count) => SresetSuivi(s, sid, count);
      case SysSignal(sid) => SignalSuivi(s, sid);
      case SysSignaln(sid, n) => SignalnSuivi(s, sid, n);
      case SysWait(sid) => WaitSuivi(s, sid);
      case Reprise(pret) => ReprendreSuivi(s, pret);
      case Reveils(ticks) => VerifieReveilleSuivi(s, ticks);
      case Tranche => TrancheSuivi(s);
      case Clavier => VerifieEsSuivi(s);
      case SysPdelete(_) => FilesSuivi(s, a);
      case SysPreset(_) => FilesSuivi(s, a);
      case SysPsend(_, _) => FilesSuivi(s, a);
      case SysPreceive(_) => FilesSuivi(s, a);
      case _ => TableIntacte(s, a); SuiviRien(s, Faire(s, a).s, {s.elu});
    }
  }

  // ----- psend and preceive, from the process that blocked ----------------------------------------

  predicate EnAppel(p: Processus) {
    Vif(p) && (p.suite == DansPsend || p.suite == DansPreceive)
  }

  /** The step releases the blocked process `p` with success: it is first in line, and a message
      is taken from it, or given to it. */
  predicate Sert(s: Noyau, a: Appel, p: int) {
    p in s.procs && s.procs[p].etat == ATTEND_FILE &&
    var fid := s.procs[p].fid;
    var q := Chaine(s, AttenteFile(fid));
    fid in s.files && q != [] && q[0] == p
    && (if s.files[fid].queueMsg == [] then a.SysPsend? && a.fid == fid else a == SysPreceive(fid))
  }

  /** The step throws `p` out of the queue it waits on. */
  predicate Rejette(s: Noyau, a: Appel, p: int) {
    p in s.procs && s.procs[p].etat == ATTEND_FILE && (a == SysPreset(s.procs[p].fid) || a == SysPdelete(s.procs[p].fid))
  }

  /** The message field of `p` once it has been served. */
  function Obtient(s: Noyau, a: Appel, p: int): int
    requires p in s.procs
  {
    if s.procs[p].suite == DansPreceive && a.SysPsend? then a.message else s.procs[p].fileValue
  }

  /** One step, seen by a process blocked in psend or preceive. */
  ghost predicate Evolue(s: Noyau, a: Appel, p: int, s': Noyau) {
    p in s.procs && p in s'.procs && Vif(s'.procs[p]) && s'.procs[p].suite == s.procs[p].suite &&
    var x, y := s.procs[p], s'.procs[p];
    if x.etat != ATTEND_FILE then Servi(y, x.suite, x.fileValue, x.operationStatus) && !Sert(s, a, p) && !Rejette(s, a, p)
    else if Sert(s, a, p) then Servi(y, x.suite, Obtient(s, a, p), 1) && !Rejette(s, a, p)
    else if Rejette(s, a, p) then Servi(y, x.suite, x.fileValue, 0)
    else y.etat == ATTEND_FILE && y.fid == x.fid && y.fileValue == x.fileValue && y.operationStatus == x.operationStatus
  }

  lemma EvolueHors(s: Noyau, a: Appel, p: int, s': Noyau, sauf: set<int>)
    requires Suivi(s, s', sauf) && p !in sauf && p in s.procs && EnAppel(s.procs[p])
    requires !Sert(s, a, p) && !Rejette(s, a, p)
    ensures Evolue(s, a, p, s')
  {
  }

  /** Somebody blocked on a queue is in its waiting list. */
  lemma DansAttente(s: Noyau, p: int, fid: int)
    requires Inv(s)
    ensures p in Chaine(s, AttenteFile(fid)) ==> p in s.procs && s.procs[p].etat == ATTEND_FILE && s.procs[p].fid == fid && p != s.elu
    ensures p in s.procs && s.procs[p].etat == ATTEND_FILE ==> p in Chaine(s, AttenteFile(s.procs[p].fid)) && s.procs[p].fid in s.files && p != s.elu
  {
    if p in s.procs && s.procs[p].etat == ATTEND_FILE {
      assert AttenteSaine(s, s.procs[p].fid);
    }
  }

  lemma EvolueFile(s: Noyau, a: Appel, p: int)
    requires Inv(s) && Legal(s, a) && !Faire(s, a).Panique? && p in s.procs && EnAppel(s.procs[p])
    requires a.SysPdelete? || a.SysPreset? || a.SysPsend? || a.SysPreceive?
    ensures Evolue(s, a, p, Faire(s, a).s)
  {
    hide Pdelete, Preset, Psend, Preceive, Inv, Evolue, Suivi;
    DansAttente(s, p, a.fid);
    SuiviRien(s, s, {});
    if a.fid !in s.files {
      FileAbsente(s, a.fid, if a.SysPsend? then a.message else 0);
      EvolueHors(s, a, p, s, {});
    } else {
      match a {
        case SysPdelete(fid) =>
          PdeleteSuivi(s, fid);
          EvolueVidage(s, a, p, Pdelete(s, fid).s);
        case SysPreset(fid) =>
          PresetSuivi(s, fid);
          EvolueVidage(s, a, p, Preset(s, fid).s);
        case SysPsend(fid, m) =>
          PsendSuivi(s, fid, m);
          EvoluePsend(s, a, p, Psend(s, fid, m).s);
        case SysPreceive(fid) =>
          PreceiveSuivi(s, fid);
          EvoluePreceive(s, a, p, Preceive(s, fid).s);
        case _ =>
      }
    }
  }

  lemma EvolueVidage(s: Noyau, a: Appel, p: int, s': Noyau)
    requires Inv(s) && p in s.procs && EnAppel(s.procs[p]) && (a.SysPdelete? || a.SysPreset?)
    requires Suivi(s, s', Membres(Chaine(s, AttenteFile(a.fid)))) && Rejetes(s, a.fid, s')
    ensures Evolue(s, a, p, s')
  {
    hide Inv, Suivi;
    DansAttente(s, p, a.fid);
    if p !in Chaine(s, AttenteFile(a.fid)) {
      EvolueHors(s, a, p, s', Membres(Chaine(s, AttenteFile(a.fid))));
    }
  }

  lemma EvoluePsend(s: Noyau, a: Appel, p: int, s': Noyau)
    requires Inv(s) && p in s.procs && EnAppel(s.procs[p]) && a.SysPsend? && a.fid in s.files && Elu(s).suite == Utilisateur
    requires Suivi(s, s', {s.elu} + Premier(s, a.fid, true))
    requires forall x :: x in Premier(s, a.fid, true) ==>
      && x in s.procs && Bloque1(s.procs[x], DansPreceive, a.fid)
      && x in s'.procs && Servi(s'.procs[x], DansPreceive, a.message, 1)
    ensures Evolue(s, a, p, s')
  {
    hide Inv, Suivi;
    DansAttente(s, p, a.fid);
    if p !in Premier(s, a.fid, true) {
      EvolueHors(s, a, p, s', {s.elu} + Premier(s, a.fid, true));
    }
  }

  lemma EvoluePreceive(s: Noyau, a: Appel, p: int, s': Noyau)
    requires Inv(s) && p in s.procs && EnAppel(s.procs[p]) && a.SysPreceive? && a.fid in s.files && Elu(s).suite == Utilisateur
    requires Suivi(s, s', {s.elu} + Premier(s, a.fid, false))
    requires forall x :: x in Premier(s, a.fid, false) ==>
      && x in s.procs && Bloque1(s.procs[x], DansPsend, a.fid)
      && x in s'.procs && Servi(s'.procs[x], DansPsend, s.procs[x].fileValue, 1)
    ensures Evolue(s, a, p, s')
  {
    hide Inv, Suivi;
    DansAttente(s, p, a.fid);
    if p !in Premier(s, a.fid, false) {
      EvolueHors(s, a, p, s', {s.elu} + Premier(s, a.fid, false));
    }
  }

  lemma HorsSauf(s: Noyau, a: Appel, p: int)
    requires Inv(s) && Legal(s, a) && !Faire(s, a).Panique? && p in s.procs && EnAppel(s.procs[p])
    requires !(a.SysPdelete? || a.SysPreset? || a.SysPsend? || a.SysPreceive?)
    requires a != SysKill(p) && !(a.Reprise? && p == s.elu) && !(a.SysChprio? && a.pid == p)
    ensures p !in Sauf(s, a)
  {
    hide Start, Inv, Vif;
    if a.SysStart? {
      StartSuivi(s, a.prio, a.alloue);
      NegatifHors(s);
    }
    EnAppelAilleurs(s, p);
  }

  lemma NegatifHors(s: Noyau)
    requires Inv(s)
    ensures forall p :: p in s.procs ==> p >= 0
  {
  }

  /** A process in psend or preceive waits nowhere else. */
  lemma EnAppelAilleurs(s: Noyau, p: int)
    requires Inv(s) && p in s.procs && EnAppel(s.procs[p])
    ensures p !in SurSem(s) && (forall pere :: p !in PereEnAttente(s, pere)) && (forall ticks :: p !in Dus(s, ticks)) && p !in PremierEs(s)
  {
    hide Tri, Files, Sems, Famille, Table;
    var q := Chaine(s, ProcBloqueEs);
    if q != [] { assert q[0] in q; }
  }

  /** chprio changes nothing but the priority in a process that is not running, and nothing at all
      in one that is not there. */
  lemma ChprioReste(s: Noyau, pid: int, newPrio: int, mot: int)
    requires Inv(s)
    ensures pid !in s.procs ==> Chprio(s, pid, newPrio, mot) == Rend(s, -1, 0)
    ensures pid in s.procs && !Actif(s.procs[pid]) ==>
      var s' := Chprio(s, pid, newPrio, mot).s;
      pid in s'.procs && s'.procs[pid] == s.procs[pid].(prio := s'.procs[pid].prio)
  {
    hide Deplacer, Finir;
    if 0 < pid < MAX_PROCESS && 0 < newPrio <= PRIO_MAX && pid in s.procs && s.procs[pid].etat == ATTEND_FILE {
      ReplacerCoherent(s, pid, newPrio, AttenteFile(s.procs[pid].fid));
    }
  }

  lemma ChprioActif(s: Noyau, pid: int, newPrio: int, mot: int)
    requires Inv(s) && pid in s.procs && Actif(s.procs[pid])
    ensures var s' := Chprio(s, pid, newPrio, mot).s;
      pid in s'.procs && Inchange(s.procs[pid].(prio := s'.procs[pid].prio), s'.procs[pid])
  {
    hide Deplacer, Finir, Suivi;
    if 0 < pid < MAX_PROCESS && 0 < newPrio <= PRIO_MAX {
      var rec := s.procs[pid].(prio := newPrio);
      if pid == s.elu {
        MajPrioCoherent(s, pid, newPrio);
        SuiviRien(Maj(s, pid, rec), Maj(s, pid, rec), {});
        SuiviFinir(Maj(s, pid, rec), Maj(s, pid, rec), newPrio < mot, {});
        InchangeParSuivi(Maj(s, pid, rec), Finir(Maj(s, pid, rec), newPrio < mot), {}, pid);
      } else {
        ReplacerCoherent(s, pid, newPrio, ProcActivables);
        var s1 := Deplacer(s, pid, rec, ProcActivables);
        SuiviRien(s1, s1, {});
        SuiviFinir(s1, s1, Elu(s).prio < newPrio, {});
        InchangeParSuivi(s1, Finir(s1, Elu(s).prio < newPrio), {}, pid);
      }
    }
  }

  lemma InchangeParSuivi(s: Noyau, s': Noyau, sauf: set<int>, p: int)
    requires Suivi(s, s', sauf) && p !in sauf && p in s.procs && Vif(s.procs[p])
    ensures p in s'.procs && Inchange(s.procs[p], s'.procs[p])
  {
  }

  lemma EvolueChprio(s: Noyau, a: Appel, p: int)
    requires Inv(s) && Legal(s, a) && p in s.procs && EnAppel(s.procs[p]) && a.SysChprio? && a.pid == p
    ensures Evolue(s, a, p, Faire(s, a).s)
  {
    hide Chprio, Inv;
    ChprioReste(s, p, a.newPrio, a.mot);
    if Actif(s.procs[p]) { ChprioActif(s, p, a.newPrio, a.mot); }
  }

  /** A process blocked in psend or preceive notices nothing but the step that serves it and the
      step that throws it out; once released, its answer does not change any more. */
  lemma AppelEvolue(s: Noyau, a: Appel, p: int)
    requires Inv(s) && Legal(s, a) && !Faire(s, a).Panique? && p in s.procs && EnAppel(s.procs[p])
    requires a != SysKill(p) && !(a.Reprise? && p == s.elu)
    ensures Evolue(s, a, p, Faire(s, a).s)
  {
    hide Faire, Inv, Evolue, Suivi, Sauf, EnAppel, Vif;
    if a.SysPdelete? || a.SysPreset? || a.SysPsend? || a.SysPreceive? {
      EvolueFile(s, a, p);
    } else if a.SysChprio? && a.pid == p {
      EvolueChprio(s, a, p);
    } else {
      HorsSauf(s, a, p);
      FaireSuivi(s, a);
      EvolueHors(s, a, p, Faire(s, a).s, Sauf(s, a));
    }
  }

  // ----- Exit values ------------------------------------------------------------------------------

  /** The step is a waitpid that returns, or goes on and returns, with child `c` and value `v`. */
  predicate Recueille(s: Noyau, a: Appel, c: int, v: int) {
    s.elu in s.procs && c >= 0 && (a.SysWaitpid? || (a.Reprise? && Elu(s).suite.DansWaitpid?))
    && Faire(s, a) == Rend(Faire(s, a).s, c, v)
  }

  lemma BoucleRecueille(s: Noyau, pid: int, c: int)
    requires Inv(s) && s.elu != IDLE && (pid >= 0 ==> pid in Elu(s).fils)
    requires BoucleWaitpid(s, pid).Rend? && BoucleWaitpid(s, pid).code == c
    ensures c in s.procs && s.procs[c].etat == ZOMBIE && s.procs[c].pere == s.elu
    ensures BoucleWaitpid(s, pid).valeur == s.procs[c].retval && c !in BoucleWaitpid(s, pid).s.procs
  {
    hide BoucleWaitpid;
    BoucleWaitpidInv(s, pid);
    assert c in Elu(s).fils;
  }

  /** waitpid returns a dead child of the caller and the value that child left, and the child
      is gone. */
  lemma RecueilExact(s: Noyau, a: Appel, c: int, v: int)
    requires Inv(s) && Legal(s, a) && Recueille(s, a, c, v)
    ensures c in s.procs && s.procs[c].etat == ZOMBIE && s.procs[c].pere == s.elu && s.procs[c].retval == v
    ensures c !in Faire(s, a).s.procs
  {
    hide BoucleWaitpid, Inv;
    InvElu(s);
    if a.SysWaitpid? {
      hide Waitpid;
      WaitpidInv(s, a.pid);
      BoucleRecueille(s, a.pid, c);
    } else {
      CibleDuFils(s);
      BoucleRecueille(s, Elu(s).suite.cible, c);
    }
  }

  lemma SaufConnus(s: Noyau, a: Appel)
    requires Inv(s)
    ensures !a.SysStart? && !a.SysKill? && !a.SysChprio? ==> forall p :: p in Sauf(s, a) ==> p in s.procs
  {
    hide Start;
    forall p, r | p in Chaine(s, r) ensures p in s.procs {}
  }

  lemma KillAbsent(s: Noyau, pid: int)
    requires s.elu in s.procs
    ensures pid !in s.procs || !Vif(s.procs[pid]) ==> Kill(s, pid) == Rend(s, -1, 0)
  {
  }

  /** Only start adds a pid to the table. */
  lemma Naissances(s: Noyau, a: Appel, p: int)
    requires Inv(s) && Legal(s, a) && !Faire(s, a).Panique? && p in Faire(s, a).s.procs && p !in s.procs
    ensures a.SysStart? && Faire(s, a).code == p
  {
    hide Start, Kill, Inv, Suivi, Vif;
    FaireSuivi(s, a);
    InvElu(s);
    SaufConnus(s, a);
    if a.SysKill? { KillAbsent(s, a.pid); }
    if a.SysChprio? { ChprioReste(s, a.pid, a.newPrio, a.mot); }
    if a.SysStart? { StartSuivi(s, a.prio, a.alloue); }
    NaissancesHors(s, Faire(s, a).s, Sauf(s, a), p);
  }

  lemma NaissancesHors(s: Noyau, s': Noyau, sauf: set<int>, p: int)
    requires Suivi(s, s', sauf) && p in s'.procs && p !in s.procs
    ensures p in sauf
  {
  }

  /** A process that died leaving `v` behind, or that is gone. */
  predicate Laissee(s: Noyau, c: int, v: int) {
    c in s.procs ==> !Vif(s.procs[c]) && s.procs[c].retval == v
  }

  lemma MortHorsSauf(s: Noyau, a: Appel, c: int)
    requires Inv(s) && c in s.procs && !Vif(s.procs[c]) && !a.SysStart? && !a.SysKill? && !a.SysChprio?
    ensures c !in Sauf(s, a)
  {
    hide Start, Vif, Premier, Membres, SurSem, PereEnAttente, Dus, PremierEs;
    MortHorsListes(s, c);
  }

  lemma MortHorsListes(s: Noyau, c: int)
    requires Inv(s) && c in s.procs && !Vif(s.procs[c])
    ensures c != s.elu && c !in SurSem(s) && c !in PremierEs(s)
    ensures (forall pere :: c !in PereEnAttente(s, pere)) && (forall ticks :: c !in Dus(s, ticks))
    ensures forall fid, vide :: c !in Premier(s, fid, vide)
    ensures forall fid :: c !in Membres(Chaine(s, AttenteFile(fid)))
  {
    forall fid, vide ensures c !in Premier(s, fid, vide) && c !in Membres(Chaine(s, AttenteFile(fid))) {
      DansAttente(s, c, fid);
    }
    var q := Chaine(s, ProcBloqueEs);
    if q != [] { assert q[0] in q; }
  }

  /** The value left by a dead process stays until its pid is used again. */
  lemma LaisseeReste(s: Noyau, a: Appel, c: int, v: int)
    requires Inv(s) && Legal(s, a) && !Faire(s, a).Panique? && Laissee(s, c, v)
    requires !(a.SysStart? && Faire(s, a).code == c)
    ensures Laissee(Faire(s, a).s, c, v)
  {
    hide Start, Kill, Inv, Suivi, Vif, Sauf;
    var s' := Faire(s, a).s;
    if c in s'.procs {
      if c !in s.procs { Naissances(s, a, c); }
      InvElu(s);
      if a == SysKill(c) {
        KillAbsent(s, c);
        assert s' == s;
      } else if a.SysChprio? && a.pid == c {
        ChprioMort(s, a, c, v);
      } else {
        FaireSuivi(s, a);
        MortHors(s, a, c);
        InchangeMort(s, s', Sauf(s, a), c);
      }
    }
  }

  lemma ChprioMort(s: Noyau, a: Appel, c: int, v: int)
    requires Inv(s) && Legal(s, a) && Laissee(s, c, v) && c in s.procs && a.SysChprio? && a.pid == c
    ensures Laissee(Faire(s, a).s, c, v)
  {
    hide Chprio, Inv;
    ChprioReste(s, c, a.newPrio, a.mot);
  }

  lemma MortHors(s: Noyau, a: Appel, c: int)
    requires Inv(s) && Legal(s, a) && c in s.procs && !Vif(s.procs[c]) && a != SysKill(c) && !Faire(s, a).Panique?
    requires !(a.SysChprio? && a.pid == c)
    ensures c !in Sauf(s, a)
  {
    hide Start, Kill, Inv, Vif, PereEnAttente;
    MortHorsListes(s, c);
    if a.SysStart? { StartSuivi(s, a.prio, a.alloue); NegatifHors(s); }
    else if !a.SysKill? && !a.SysChprio? { MortHorsSauf(s, a, c); }
  }

  lemma InchangeMort(s: Noyau, s': Noyau, sauf: set<int>, c: int)
    requires Suivi(s, s', sauf) && c !in sauf && c in s.procs && c in s'.procs
    ensures s'.procs[c].retval == s.procs[c].retval && (Vif(s'.procs[c]) <==> Vif(s.procs[c]))
  {
  }

  /** exit leaves its argument behind. */
  lemma ExitLaisse(s: Noyau, retval: int)
    requires Inv(s) && s.elu != IDLE && !Exit(s, retval).Panique?
    ensures Laissee(Exit(s, retval).s, s.elu, retval)
  {
    var e := Elu(s).(retval := retval);
    assert Exit(s, retval) == Quitter(Mourir(s, e, true));
    MourirRetval(s, e);
    hide Mourir, Quitter, Exit, Suivi;
    MourirInv(s, e, true);
    QuitterSuivi(Mourir(s, e, true));
    if s.elu in Exit(s, retval).s.procs {
      InchangeMort(Mourir(s, e, true), Exit(s, retval).s, {}, s.elu);
    }
  }

  lemma MourirRetval(s: Noyau, e: Processus)
    requires Inv(s) && s.elu != IDLE && e.prio == Elu(s).prio && e.pere == Elu(s).pere && e.fils == Elu(s).fils && AttenteFondee(e)
    ensures s.elu in Mourir(s, e, true).procs && Mourir(s, e, true).procs[s.elu].retval == e.retval && !Vif(Mourir(s, e, true).procs[s.elu])
  {
    hide Detacher, ReveilPere;
    var rec := e.(etat := if e.pere != NULL then ZOMBIE else MOURANT);
    DetacherEffet(s, s.elu, rec);
    if e.pere != NULL {
      ZombieCoherent(s, s.elu, rec);
      ReveilPereCoherent(Detacher(s, s.elu, rec), e.pere);
    }
  }
}
