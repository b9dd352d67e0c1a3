/** Every way into the kernel, as one step function, and what each step keeps. */
module KernelSteps {
  import opened PriorityQueue
  import opened KernelState
  import opened KernelReap
  import opened KernelSched
  import opened KernelWake
  import opened KernelFiles
  import opened KernelSem
  import opened KernelStart
  import opened KernelDeath
  import opened KernelClock
  import opened KernelPatience
  import opened KernelFrames
  import opened KernelFollow
  import opened KernelMoves
  import opened KernelRank

  /** A system call of the running process, the rest of a call it was suspended in, or an
      interrupt. */
  datatype Appel =
    | SysStart(prio: int, alloue: bool) | SysChprio(pid: int, newPrio: int, mot: int)
    | SysExit(retval: int) | SysKill(pid: int) | SysWaitpid(pid: int)
    | SysWaitClock(ticks: int) | SysConsRead(pret: bool)
    | SysPcreate(maxMsg: int) | SysPdelete(fid: int) | SysPreset(fid: int) | SysPcount(fid: int, nonNul: bool)
    | SysPsend(fid: int, message: int) | SysPreceive(fid: int)
    | SysScreate(count: int) | SysSdelete(sid: int) | SysSreset(sid: int, count: int) | SysScount(sid: int)
    | SysSignal(sid: int) | SysSignaln(sid: int, n: int) | SysTryWait(sid: int) | SysWait(sid: int)
    | Reprise(pret: bool)   // the running process goes on inside the call it was suspended in
    | Reveils(ticks: int)   // clock interrupt: verifie_reveille
    | Tranche               // clock interrupt: end of a time slice
    | Clavier               // keyboard interrupt: verifie_es

  function Reprendre(s: Noyau, pret: bool): Issue
    requires s.elu in s.procs
  {
    match Elu(s).suite
    case Utilisateur => Rend(s, 0, 0)
    case DansPsend => ReprisePsend(s)
    case DansPreceive => ReprisePreceive(s)
    case DansWait => RepriseWait(s)
    case DansWaitpid(cible) => BoucleWaitpid(s, cible)
    case DansConsRead => if pret then ConsReadLu(s) else ConsReadBloque(s)
  }

  function Faire(s: Noyau, a: Appel): Issue
    requires s.elu in s.procs
  {
    match a
    case SysStart(prio, alloue) => Start(s, prio, alloue)
    case SysChprio(pid, newPrio, mot) => Chprio(s, pid, newPrio, mot)
    case SysExit(retval) => Exit(s, retval)
    case SysKill(pid) => Kill(s, pid)
    case SysWaitpid(pid) => Waitpid(s, pid)
    case SysWaitClock(ticks) => WaitClock(s, ticks)
    case SysConsRead(pret) => if pret then ConsReadLu(s) else ConsReadBloque(s)
    case SysPcreate(maxMsg) => Pcreate(s, maxMsg)
    case SysPdelete(fid) => Pdelete(s, fid)
    case SysPreset(fid) => Preset(s, fid)
    case SysPcount(fid, nonNul) => Pcount(s, fid, nonNul)
    case SysPsend(fid, message) => Psend(s, fid, message)
    case SysPreceive(fid) => Preceive(s, fid)
    case SysScreate(count) => Screate(s, count)
    case SysSdelete(sid) => Sdelete(s, sid)
    case SysSreset(sid, count) => Sreset(s, sid, count)
    case SysScount(sid) => Scount(s, sid)
    case SysSignal(sid) => Signal(s, sid)
    case SysSignaln(sid, n) => Signaln(s, sid, n)
    case SysTryWait(sid) => TryWait(s, sid)
    case SysWait(sid) => Wait(s, sid)
    case Reprise(pret) => Reprendre(s, pret)
    case Reveils(ticks) => Rend(VerifieReveille(s, ticks), 0, 0)
    case Tranche => Rend(Ordonnanceur(s), 0, 0)
    case Clavier => Rend(VerifieEs(s), 0, 0)
  }

  predicate EntierCourt(n: int) {
    SHORTINT_MIN <= n <= SHORTINT_MAX
  }

  /** Idle only starts the first process; a process suspended inside a call first finishes it,
      interrupts being masked in the kernel. */
  predicate Legal(s: Noyau, a: Appel) {
    s.elu in s.procs &&
    match a
    case SysStart(_, _) => Elu(s).suite == Utilisateur
    case Reprise(_) => s.elu != IDLE && Elu(s).suite != Utilisateur
    case Reveils(_) => Elu(s).suite == Utilisateur
    case Tranche => Elu(s).suite == Utilisateur
    case Clavier => Elu(s).suite == Utilisateur
    case SysScreate(count) => s.elu != IDLE && Elu(s).suite == Utilisateur && EntierCourt(count)
    case SysSreset(_, count) => s.elu != IDLE && Elu(s).suite == Utilisateur && EntierCourt(count)
    case SysSignaln(_, n) => s.elu != IDLE && Elu(s).suite == Utilisateur && EntierCourt(n)
    case _ => s.elu != IDLE && Elu(s).suite == Utilisateur
  }

  /** The steps that stop the kernel or use freed memory. */
  ghost predicate Fatal(s: Noyau, a: Appel)
    requires s.elu in s.procs
  {
    match a
    case SysExit(_) => Elu(s).pere != NULL && Condamne(s, Elu(s).pere)
    case SysKill(pid) =>
      pid > IDLE && pid in s.procs &&
      (if pid == s.elu then Elu(s).pere != NULL && Condamne(s, Elu(s).pere) else s.procs[pid].etat == ATTEND_FILS)
    case SysSignal(sid) => sid in s.sems && s.sems[sid] < 0 && Chaine(s, AttenteSem(sid)) == []
    case SysSignaln(sid, n) =>
      sid in s.sems && s.sems[sid] + n <= SHORTINT_MAX
      && n > |Chaine(s, AttenteSem(sid))| && s.sems[sid] + |Chaine(s, AttenteSem(sid))| < 0
    case _ => false
  }

  // ----- Faults, and the invariant --------------------------------------------------------------

  lemma {:induction false} SignauxPanique(s: Noyau, sid: int, n: nat)
    requires Inv(s) && sid in s.sems && s.sems[sid] + n <= SHORTINT_MAX
    ensures Signaux(s, sid, n).Panique? <==>
      n > |Chaine(s, AttenteSem(sid))| && s.sems[sid] + |Chaine(s, AttenteSem(sid))| < 0
    ensures !Signaux(s, sid, n).Panique? ==> Inv(Signaux(s, sid, n).s)
    decreases n
  {
    hide Signal;
    if n > 0 {
      SignalPanique(s, sid);
      if !Signal(s, sid).Panique? {
        SignalPas(s, sid);
        SignalInv(s, sid);
        SignauxPanique(Signal(s, sid).s, sid, n - 1);
      }
    }
  }

  lemma SignalPas(s: Noyau, sid: int)
    requires Inv(s) && sid in s.sems && s.sems[sid] < SHORTINT_MAX && !Signal(s, sid).Panique?
    ensures var i, q := Signal(s, sid), Chaine(s, AttenteSem(sid));
      && i.Rend? && sid in i.s.sems && i.s.sems[sid] == s.sems[sid] + 1
      && Chaine(i.s, AttenteSem(sid)) == if s.sems[sid] < 0 && q != [] then q[1..] else q
  {
    hide SignalTete, Reveil;
    if s.sems[sid] < 0 {
      SignalPanique(s, sid);
      SignalTeteEffet(s, sid);
      SignalDeplie(s, sid);
    } else {
      assert Chaine(Signal(s, sid).s, AttenteSem(sid)) == Chaine(s, AttenteSem(sid));
    }
  }

  lemma SignalnPanique(s: Noyau, sid: int, n: int)
    requires Inv(s)
    ensures Signaln(s, sid, n).Panique? <==> Fatal(s, SysSignaln(sid, n))
    ensures !Signaln(s, sid, n).Panique? ==> Inv(Signaln(s, sid, n).s)
  {
    hide Signaux, Inv;
    if sid in s.sems && s.sems[sid] + n <= SHORTINT_MAX && n >= 0 {
      SignauxPanique(s, sid, n);
    } else if sid in s.sems && n < 0 {
      SignauxVide(s, sid, n);
    }
  }

  lemma SignauxVide(s: Noyau, sid: int, n: int)
    requires n <= 0
    ensures Signaux(s, sid, n) == Rend(s, 0, 0)
  {
  }

  lemma CibleDuFils(s: Noyau)
    requires Inv(s) && Elu(s).suite.DansWaitpid?
    ensures Elu(s).suite.cible >= 0 ==> Elu(s).suite.cible in Elu(s).fils
  {
    assert AttenteFondee(Elu(s));
  }

  lemma ReprendreInv(s: Noyau, pret: bool)
    requires Inv(s) && s.elu != IDLE
    ensures !Reprendre(s, pret).Panique? && Inv(Reprendre(s, pret).s)
    ensures Preeminent(s) ==> Preeminent(Reprendre(s, pret).s)
  {
    hide BoucleWaitpid, ReprisePsend, ReprisePreceive, RepriseWait, ConsReadLu, ConsReadBloque, Inv, Preeminent;
    SansAttente(s);
    match Elu(s).suite {
      case Utilisateur =>
      case DansPsend => RepriseFileRang(s);
      case DansPreceive => RepriseFileRang(s);
      case DansWait => RepriseWaitInv(s);
      case DansWaitpid(cible) =>
        CibleDuFils(s);
        BoucleWaitpidInv(s, cible);
        if Preeminent(s) { BoucleWaitpidRang(s, cible); }
      case DansConsRead => SuspensionsInv(s, 0); FormeSuspensions(s, 0);
    }
  }

  lemma RepriseFileRang(s: Noyau)
    requires Inv(s)
    ensures ReprisePsend(s).Rend? && ReprisePreceive(s).Rend?
    ensures Inv(ReprisePsend(s).s) && Inv(ReprisePreceive(s).s)
    ensures Preeminent(s) ==> Preeminent(ReprisePsend(s).s) && Preeminent(ReprisePreceive(s).s)
  {
    hide Inv, Preeminent;
    SansAttente(s);
    MajEluInv(s, Elu(s).(suite := Utilisateur));
  }

  lemma SansAttente(s: Noyau)
    requires Inv(s)
    ensures s.elu in s.procs && Elu(s).etat == ELU && Elu(s).chainage == Libre
  {
  }

  lemma TrancheInv(s: Noyau)
    requires Inv(s)
    ensures Inv(Ordonnanceur(s)) && Preeminent(Ordonnanceur(s))
  {
    EluSauf(s);
    OrdonnanceurInv(s);
  }

  lemma PcountInv(s: Noyau, a: Appel)
    requires s.elu in s.procs && (a.SysPcount? || a.SysScount?)
    ensures Faire(s, a).Rend? && Faire(s, a).s == s
  {
  }

  lemma ScreateSansPanne(s: Noyau, count: int, maxMsg: int)
    ensures Screate(s, count).Rend? && Pcreate(s, maxMsg).Rend?
  {
  }
  predicate DeSemaphore(a: Appel) {
    a.SysScreate? || a.SysSdelete? || a.SysSreset? || a.SysScount? || a.SysSignal? || a.SysSignaln? || a.SysTryWait?
    || a.SysWait?
  }

  lemma FaireSemInv(s: Noyau, a: Appel)
    requires Inv(s) && Legal(s, a) && DeSemaphore(a)
    ensures Faire(s, a).Panique? <==> Fatal(s, a)
    ensures !Faire(s, a).Panique? ==> Inv(Faire(s, a).s)
  {
    hide Start, Chprio, Exit, Kill, Waitpid, WaitClock, ConsReadLu, ConsReadBloque, Pcreate, Pdelete, Preset, Psend, Preceive;
    hide Screate, Sdelete, Sreset, Signal, Signaln, TryWait, Wait, Reprendre, VerifieReveille, Ordonnanceur, VerifieEs;
    hide Inv, Preeminent, Condamne;
    match a {
      case SysScreate(count) => ScreateSansPanne(s, count, 0); ScreateInv(s, count);
      case SysSdelete(sid) => SdeleteInv(s, sid);
      case SysSreset(sid, count) => SresetInv(s, sid, count);
      case SysScount(_) => PcountInv(s, a);
      case SysSignal(sid) => SignalPanique(s, sid); if !Signal(s, sid).Panique? { SignalInv(s, sid); }
      case SysSignaln(sid, n) => SignalnPanique(s, sid, n);
      case SysTryWait(sid) => TryWaitInv(s, sid);
      case SysWait(sid) => WaitInv(s, sid);
      case _ =>
    }
  }


  /** The invariant holds along every run, and a legal step goes wrong exactly in the cases of
      `Fatal`. */
  lemma FaireInv(s: Noyau, a: Appel)
    requires Inv(s) && Legal(s, a)
    ensures Faire(s, a).Panique? <==> Fatal(s, a)
    ensures !Faire(s, a).Panique? ==> Inv(Faire(s, a).s)
  {
    hide Start, Chprio, Exit, Kill, Waitpid, WaitClock, ConsReadLu, ConsReadBloque, Pcreate, Pdelete, Preset, Psend, Preceive;
    hide Screate, Sdelete, Sreset, Signal, Signaln, TryWait, Wait, Reprendre, VerifieReveille, Ordonnanceur, VerifieEs;
    hide Inv, Preeminent, Condamne;
    if DeSemaphore(a) {
      FaireSemInv(s, a);
    } else {
      match a {
        case SysStart(prio, alloue) => StartInv(s, prio, alloue);
        case SysChprio(pid, newPrio, mot) => ChprioInv(s, pid, newPrio, mot);
        case SysExit(retval) => ExitInv(s, retval);
        case SysKill(pid) => KillPanique(s, pid); if !Kill(s, pid).Panique? { KillInv(s, pid); }
        case SysWaitpid(pid) => WaitpidInv(s, pid);
        case SysWaitClock(ticks) => SuspensionsInv(s, ticks); FormeSuspensions(s, ticks);
        case SysConsRead(pret) => SuspensionsInv(s, 0); FormeSuspensions(s, 0);
        case SysPcreate(maxMsg) => ScreateSansPanne(s, 0, maxMsg); PcreateInv(s, maxMsg);
        case SysPdelete(fid) => PdeleteInv(s, fid);
        case SysPreset(fid) => PresetInv(s, fid);
        case SysPcount(_, _) => PcountInv(s, a);
        case SysPsend(fid, m) => PsendInv(s, fid, m);
        case SysPreceive(fid) => PreceiveInv(s, fid);
        case Reprise(pret) => ReprendreInv(s, pret);
        case Reveils(ticks) => VerifieReveilleExact(s, ticks);
        case Tranche => TrancheInv(s);
        case Clavier => VerifieEsInv(s);
        case _ =>
      }
    }
  }

  lemma FormeSuspensions(s: Noyau, ticks: int)
    requires s.elu in s.procs
    ensures WaitClock(s, ticks).Suspend? && ConsReadBloque(s).Suspend? && ConsReadLu(s).Rend?
  {
  }

  // ----- The meaning of a semaphore count --------------------------------------------------------

  /** kill of a process that waits on a semaphore. */
  predicate TueEnAttente(s: Noyau, a: Appel) {
    a.SysKill? && a.pid in s.procs && s.procs[a.pid].etat == ATTEND_SEMAPHORE
  }

  lemma ReprendreIntact(s: Noyau, pret: bool)
    requires Inv(s) && s.elu != IDLE
    ensures !Reprendre(s, pret).Panique? && SemsIntacts(s, Reprendre(s, pret).s)
  {
    hide BoucleWaitpid, ConsReadBloque, Inv, SemsIntacts, Maj;
    SansAttente(s);
    MajIntact(s);
    match Elu(s).suite {
      case Utilisateur => MemesSems(s);
      case DansWaitpid(cible) =>
        CibleDuFils(s);
        BoucleWaitpidIntact(s, cible);
      case DansConsRead => FormeSuspensions(s, 0); HorlogeIntact(s, 0);
      case _ =>
    }
  }

  lemma MajIntact(s: Noyau)
    requires s.elu in s.procs
    ensures SemsIntacts(s, Maj(s, s.elu, Elu(s).(suite := Utilisateur))) && ConsReadLu(s).s == Maj(s, s.elu, Elu(s).(suite := Utilisateur))
  {
    assert forall r :: Chaine(Maj(s, s.elu, Elu(s).(suite := Utilisateur)), r) == Chaine(s, r);
  }

  lemma TrancheIntact(s: Noyau)
    requires Inv(s)
    ensures SemsIntacts(s, Ordonnanceur(s))
  {
    EluSauf(s);
    OrdonnanceurIntact(s);
  }

  lemma PcreateIntact(s: Noyau, maxMsg: int)
    ensures SemsIntacts(s, Pcreate(s, maxMsg).s)
  {
    assert forall r :: Chaine(Pcreate(s, maxMsg).s, r) == Chaine(s, r);
  }

  lemma WaitpidIntact(s: Noyau, pid: int)
    requires Inv(s) && s.elu != IDLE
    ensures !Waitpid(s, pid).Panique? && SemsIntacts(s, Waitpid(s, pid).s)
  {
    hide BoucleWaitpid, Waitpid;
    WaitpidInv(s, pid);
    if if pid >= 0 then pid in Elu(s).fils else Elu(s).fils != [] {
      BoucleWaitpidIntact(s, pid);
    }
  }

  lemma SemsComptes(s: Noyau, a: Appel)
    requires Inv(s) && Bornes(s) && Legal(s, a) && !Faire(s, a).Panique?
    requires a.SysScreate? || a.SysSdelete? || a.SysSreset? || a.SysSignal? || a.SysSignaln? || a.SysTryWait? || a.SysWait?
    ensures Bornes(Faire(s, a).s) && (Comptes(s) ==> Comptes(Faire(s, a).s))
  {
    hide Screate, Sdelete, Sreset, Signal, Signaux, TryWait, Wait, Inv, Comptes, Bornes;
    match a {
      case SysScreate(count) => ScreateInv(s, count);
      case SysSdelete(sid) => SdeleteInv(s, sid);
      case SysSreset(sid, count) => SresetInv(s, sid, count);
      case SysSignal(sid) => if sid in s.sems { SignalEffet(s, sid); } else { SignalAbsent(s, sid); }
      case SysSignaln(sid, n) =>
        if sid in s.sems && n >= 0 { SignalnAtomique(s, sid, n); } else { SignauxVide(s, sid, if n < 0 then n else 0); }
      case SysTryWait(sid) => TryWaitInv(s, sid);
      case SysWait(sid) => WaitComptes(s, sid);
      case _ =>
    }
  }

  lemma SignalAbsent(s: Noyau, sid: int)
    requires sid !in s.sems
    ensures Signal(s, sid) == Rend(s, -1, 0)
  {
  }

  lemma AutresIntacts(s: Noyau, a: Appel)
    requires Inv(s) && Legal(s, a) && !Faire(s, a).Panique? && !TueEnAttente(s, a) && !a.Reprise?
    requires !(a.SysScreate? || a.SysSdelete? || a.SysSreset? || a.SysSignal? || a.SysSignaln? || a.SysTryWait? || a.SysWait?)
    ensures SemsIntacts(s, Faire(s, a).s)
  {
    hide Start, Chprio, Exit, Kill, Waitpid, WaitClock, ConsReadBloque, ConsReadLu, Pcreate, Pdelete, Preset, Psend, Preceive;
    hide Screate, Sdelete, Sreset, Signal, Signaln, TryWait, Wait, Reprendre, VerifieReveille, Ordonnanceur, VerifieEs, Inv, SemsIntacts;
    match a {
      case SysStart(prio, alloue) => StartIntact(s, prio, alloue);
      case SysChprio(pid, newPrio, mot) => ChprioIntact(s, pid, newPrio, mot);
      case SysExit(retval) => ExitIntact(s, retval);
      case SysKill(pid) => KillIntact(s, pid);
      case SysWaitpid(pid) => WaitpidIntact(s, pid);
      case SysWaitClock(ticks) => HorlogeIntact(s, ticks);
      case SysConsRead(pret) => HorlogeIntact(s, 0); MajIntact(s);
      case SysPcreate(maxMsg) => PcreateIntact(s, maxMsg);
      case SysPdelete(fid) => PdeleteIntact(s, fid);
      case SysPreset(fid) => PresetIntact(s, fid);
      case SysPsend(fid, m) => PsendIntact(s, fid, m);
      case SysPreceive(fid) => PreceiveIntact(s, fid);
      case Reveils(ticks) => VerifieReveilleIntact(s, ticks);
      case Tranche => TrancheIntact(s);
      case Clavier => VerifieEsIntact(s);
      case _ => PcountInv(s, a); MemesSems(s);
    }
  }

  lemma MemesSems(s: Noyau)
    ensures SemsIntacts(s, s)
  {
  }

  /** A negative count goes on being the number of waiters, unless a waiter is killed; it then
      never does. */
  lemma ComptesGardes(s: Noyau, a: Appel)
    requires Inv(s) && Comptes(s) && Legal(s, a) && !Faire(s, a).Panique?
    ensures Comptes(Faire(s, a).s) <==> !TueEnAttente(s, a)
  {
    hide Faire, Inv, Comptes, SemsIntacts, Reprendre, Kill;
    if a.SysKill? {
      FaireKill(s, a);
      KillComptes(s, a.pid);
    } else if a.SysScreate? || a.SysSdelete? || a.SysSreset? || a.SysSignal? || a.SysSignaln? || a.SysTryWait? || a.SysWait? {
      ComptesBornes(s);
      SemsComptes(s, a);
    } else {
      SemsLaisses(s, a);
      ComptesIntacts(s, Faire(s, a).s);
    }
  }

  /** Whoever is killed, there are never more waiters than the count says. */
  lemma BornesGardees(s: Noyau, a: Appel)
    requires Inv(s) && Bornes(s) && Legal(s, a) && !Faire(s, a).Panique?
    ensures Bornes(Faire(s, a).s)
  {
    hide Faire, Inv, Bornes, SemsIntacts, Reprendre, Kill;
    if a.SysKill? {
      FaireKill(s, a);
      KillBornes(s, a.pid);
    } else if a.SysScreate? || a.SysSdelete? || a.SysSreset? || a.SysSignal? || a.SysSignaln? || a.SysTryWait? || a.SysWait? {
      SemsComptes(s, a);
    } else {
      SemsLaisses(s, a);
      BornesIntactes(s, Faire(s, a).s);
    }
  }

  /** Steps that are neither a semaphore call nor a kill. */
  lemma SemsLaisses(s: Noyau, a: Appel)
    requires Inv(s) && Legal(s, a) && !Faire(s, a).Panique? && !a.SysKill?
    requires !(a.SysScreate? || a.SysSdelete? || a.SysSreset? || a.SysSignal? || a.SysSignaln? || a.SysTryWait? || a.SysWait?)
    ensures SemsIntacts(s, Faire(s, a).s)
  {
    hide Faire, Inv, SemsIntacts, Reprendre;
    if a.Reprise? {
      FaireReprise(s, a);
      ReprendreIntact(s, a.pret);
    } else {
      AutresIntacts(s, a);
    }
  }

  lemma FaireKill(s: Noyau, a: Appel)
    requires a.SysKill? && s.elu in s.procs
    ensures Faire(s, a) == Kill(s, a.pid)
  {
  }

  lemma FaireReprise(s: Noyau, a: Appel)
    requires a.Reprise? && s.elu in s.procs
    ensures Faire(s, a) == Reprendre(s, a.pret) && (Legal(s, a) ==> s.elu != IDLE)
  {
  }

  // ----- No lost wake-up --------------------------------------------------------------------------

  /** A process kills itself while its father waits for it. */
  predicate PartSansPrevenir(s: Noyau, a: Appel) {
    a.SysKill? && a.pid == s.elu && a.pid > IDLE && a.pid in s.procs && s.procs[a.pid].pere in s.procs
    && Attend(s.procs[s.procs[a.pid].pere], a.pid)
  }

  lemma MajElSuitePaisible(s: Noyau)
    requires Inv(s) && SansReveilPerdu(s)
    ensures SansReveilPerdu(Maj(s, s.elu, Elu(s).(suite := Utilisateur)))
  {
    hide SansReveilPerdu;
    SansAttente(s);
    var rec := Elu(s).(suite := Utilisateur);
    MajPaisible(s, Maj(s, s.elu, rec), s.elu, rec);
    PaisibleGarde(s, Maj(s, s.elu, rec));
  }

  lemma ReprendrePaisible(s: Noyau, pret: bool)
    requires Inv(s) && SansReveilPerdu(s) && s.elu != IDLE
    ensures !Reprendre(s, pret).Panique? && SansReveilPerdu(Reprendre(s, pret).s)
  {
    hide BoucleWaitpid, ConsReadBloque, Inv, SansReveilPerdu, Maj;
    SansAttente(s);
    match Elu(s).suite {
      case DansWaitpid(cible) =>
        CibleDuFils(s);
        WaitpidPaisible(s, cible);
      case DansConsRead =>
        FormeSuspensions(s, 0);
        if pret { MajElSuitePaisible(s); } else { HorlogePaisible(s, 0); }
      case _ => MajElSuitePaisible(s);
    }
  }

  lemma TranchePaisible(s: Noyau)
    requires Inv(s) && SansReveilPerdu(s)
    ensures SansReveilPerdu(Ordonnanceur(s))
  {
    hide SansReveilPerdu;
    EluSauf(s);
    OrdonnanceurPaisible(s);
  }

  lemma ToutesWaitpidPaisible(s: Noyau, pid: int)
    requires Inv(s) && SansReveilPerdu(s) && s.elu != IDLE
    ensures !Waitpid(s, pid).Panique? && SansReveilPerdu(Waitpid(s, pid).s)
  {
    hide BoucleWaitpid, Waitpid, SansReveilPerdu;
    WaitpidInv(s, pid);
    if if pid >= 0 then pid in Elu(s).fils else Elu(s).fils != [] {
      WaitpidPaisible(s, pid);
    }
  }

  /** A step that leaves the table alone. */
  lemma TableIntacte(s: Noyau, a: Appel)
    requires s.elu in s.procs && !Faire(s, a).Panique?
    requires a.SysPcount? || a.SysScount? || a.SysPcreate? || a.SysScreate? || a.SysTryWait?
    ensures Faire(s, a).s.procs == s.procs && Faire(s, a).s.elu == s.elu
  {
  }

  lemma SansReveilPareil(s: Noyau, s': Noyau)
    requires SansReveilPerdu(s) && s'.procs == s.procs
    ensures SansReveilPerdu(s')
  {
    forall f, c | f in s'.procs && c in s'.procs && Attend(s'.procs[f], c) ensures s'.procs[c].etat != ZOMBIE {
      assert Attend(s.procs[f], c);
    }
  }

  lemma SignalnPaisible(s: Noyau, sid: int, n: int)
    requires Inv(s) && SansReveilPerdu(s) && !Signaln(s, sid, n).Panique?
    ensures SansReveilPerdu(Signaln(s, sid, n).s)
  {
    hide Signaux, SansReveilPerdu, Inv;
    if sid in s.sems && s.sems[sid] <= SHORTINT_MAX - n { SignauxPaisible(s, sid, n); }
  }

  lemma ResteReveils(s: Noyau, a: Appel)
    requires Inv(s) && SansReveilPerdu(s) && Legal(s, a) && !Faire(s, a).Panique? && !PartSansPrevenir(s, a)
    ensures SansReveilPerdu(Faire(s, a).s)
  {
    hide Start, Chprio, Exit, Kill, Waitpid, WaitClock, ConsReadLu, ConsReadBloque, Pcreate, Pdelete, Preset, Psend, Preceive;
    hide Screate, Sdelete, Sreset, Signal, Signaln, TryWait, Wait, Reprendre, VerifieReveille, Ordonnanceur, VerifieEs;
    hide Inv, SansReveilPerdu;
    match a {
      case SysStart(prio, alloue) => StartPaisible(s, prio, alloue);
      case SysChprio(pid, newPrio, mot) => ChprioPaisible(s, pid, newPrio, mot);
      case SysExit(retval) => ExitPaisible(s, retval);
      case SysKill(pid) => PereConnu(s); KillPaisible(s, pid);
      case SysWaitpid(pid) => ToutesWaitpidPaisible(s, pid);
      case SysWaitClock(ticks) => HorlogePaisible(s, ticks);
      case SysConsRead(pret) => HorlogePaisible(s, 0); MajElSuitePaisible(s); MajIntact(s);
      case SysPdelete(fid) => PdeletePaisible(s, fid);
      case SysPreset(fid) => PresetPaisible(s, fid);
      case SysPsend(fid, m) => PsendPaisible(s, fid, m);
      case SysPreceive(fid) => PreceivePaisible(s, fid);
      case SysSdelete(sid) => SviderPaisible(s, sid, 0);
      case SysSreset(sid, count) => SviderPaisible(s, sid, count);
      case SysSignal(sid) => SignalToutPaisible(s, sid);
      case SysSignaln(sid, n) => SignalnPaisible(s, sid, n);
      case SysWait(sid) => WaitPaisible(s, sid);
      case Reprise(pret) => ReprendrePaisible(s, pret);
      case Reveils(ticks) => VerifieReveillePaisible(s, ticks);
      case Tranche => TranchePaisible(s);
      case Clavier => VerifieEsPaisible(s);
      case _ => TableIntacte(s, a); SansReveilPareil(s, Faire(s, a).s);
    }
  }

  lemma PereConnu(s: Noyau)
    requires Inv(s)
    ensures s.elu in s.procs && Elu(s).pere != NULL ==> Elu(s).pere in s.procs
    ensures NULL !in s.procs
  {
  }

  /** Self-kill by a child whose father sleeps on it: the father keeps sleeping over a zombie. */
  lemma PartSansPrevenirPerd(s: Noyau, pid: int)
    requires Inv(s) && !Kill(s, pid).Panique? && PartSansPrevenir(s, SysKill(pid))
    ensures !SansReveilPerdu(Kill(s, pid).s)
  {
    hide Mourir, Quitter, Ordonnanceur, FreeMourantQueue;
    var e, f := Elu(s), Elu(s).pere;
    assert Kill(s, pid) == Quitter(Mourir(s, e, false)) by { KillSoi(s); }
    MourirInv(s, e, false);
    var s1 := Mourir(s, e, false);
    QuitterInv(s1);
    MourirSoi(s);
    QuitterGarde(s1, f, pid);
    assert Attend(Kill(s, pid).s.procs[f], pid);
  }

  lemma KillSoi(s: Noyau)
    requires Inv(s) && s.elu != IDLE
    ensures Kill(s, s.elu) == Quitter(Mourir(s, Elu(s), false))
  {
    hide Quitter, Detacher;
  }

  lemma MourirSoi(s: Noyau)
    requires Inv(s) && s.elu != IDLE
    ensures var s1 := Mourir(s, Elu(s), false);
      && s1.elu == s.elu
      && s1.procs == s.procs[s.elu := Elu(s).(etat := if Elu(s).pere != NULL then ZOMBIE else MOURANT, chainage := Libre)]
  {
    hide Detacher;
    var e := Elu(s);
    DetacherEffet(s, s.elu, e.(etat := if e.pere != NULL then ZOMBIE else MOURANT));
    DetacherElu(s, s.elu, e.(etat := if e.pere != NULL then ZOMBIE else MOURANT));
  }

  /** Reaping leaves a waiting father and his zombie child alone, when the child is not to be
      reaped itself; the table it leaves has somebody to elect. */
  lemma MoissonGarde(s: Noyau, f: int, c: int)
    requires Coherent(s) && DefuntsSansPere(s) && !Quitter(s).Panique? && c == s.elu && f in s.procs && f != c
    requires s.procs[f].etat == ATTEND_FILS && s.procs[c].etat == ZOMBIE
    ensures var s1 := FreeMourantQueue(s);
      && Coherent(s1) && DefuntsSansPere(s1) && s1.elu == c && f in s1.procs && c in s1.procs
      && s1.procs[c].etat == ZOMBIE && s1.procs[f].etat == ATTEND_FILS
      && s1.procs[f].suite == s.procs[f].suite && s1.procs[f].fils == s.procs[f].fils
      && Chaine(s1, ProcActivables) != [] && s1.procs[c].chainage != Dans(ProcMourants)
      && Ordonnanceur(s) == Commutation(s1)
  {
    hide FreeMourantQueue, Ordonnanceur, Tri, Files, Sems, Trie, Table;
    QuitterInv(s);
    MoissonCoherent(s);
    var s1 := FreeMourantQueue(s);
    if Condamne(s, f) { CondamneEtat(s, f); assert false; }
    MoissonHorsMourants(s1);
    if Chaine(s1, ProcActivables) == [] { IdlePret(s1); assert false; }
    OrdonnanceurInv(s);
  }

  /** Electing somebody changes neither of them. */
  lemma CommutationGarde(s: Noyau, f: int, c: int)
    requires Coherent(s) && DefuntsSansPere(s) && c == s.elu && c in s.procs && f in s.procs && f != c
    requires s.procs[c].chainage != Dans(ProcMourants) && Chaine(s, ProcActivables) != []
    requires s.procs[f].etat == ATTEND_FILS && s.procs[c].etat == ZOMBIE
    ensures var s' := Commutation(s);
      && f in s'.procs && c in s'.procs && s'.procs[c].etat == ZOMBIE
      && s'.procs[f].etat == ATTEND_FILS && s'.procs[f].suite == s.procs[f].suite && s'.procs[f].fils == s.procs[f].fils
  {
    hide Commutation, Tri, Files, Sems, Trie, Table, Famille;
    CommutationInv(s);
    TeteOuElu(s);
  }

  lemma QuitterGarde(s: Noyau, f: int, c: int)
    requires Coherent(s) && DefuntsSansPere(s) && !Quitter(s).Panique? && c == s.elu && f in s.procs && f != c
    requires s.procs[f].etat == ATTEND_FILS && s.procs[c].etat == ZOMBIE
    ensures var s' := Quitter(s).s;
      && f in s'.procs && c in s'.procs && s'.procs[c].etat == ZOMBIE
      && s'.procs[f].etat == ATTEND_FILS && s'.procs[f].suite == s.procs[f].suite && s'.procs[f].fils == s.procs[f].fils
  {
    hide FreeMourantQueue, Commutation, Ordonnanceur, Coherent, DefuntsSansPere;
    MoissonGarde(s, f, c);
    CommutationGarde(FreeMourantQueue(s), f, c);
  }

  /** A father asleep in waitpid never sleeps over a dead child it waits for, unless that child
      killed itself; then it does. */
  lemma ReveilGarde(s: Noyau, a: Appel)
    requires Inv(s) && SansReveilPerdu(s) && Legal(s, a) && !Faire(s, a).Panique?
    ensures SansReveilPerdu(Faire(s, a).s) <==> !PartSansPrevenir(s, a)
  {
    hide Faire, Inv, SansReveilPerdu, Kill;
    if PartSansPrevenir(s, a) {
      FaireKill(s, a);
      PartSansPrevenirPerd(s, a.pid);
    } else {
      ResteReveils(s, a);
    }
  }

  // ----- The priority rule ------------------------------------------------------------------------

  /** The steps after which a ready process outranks the running one: chprio below what the
      compared word shows, and the calls that wake without switching. */
  predicate Laisse(s: Noyau, a: Appel)
    requires s.elu in s.procs
  {
    match a
    case SysChprio(pid, newPrio, mot) =>
      pid == s.elu && pid != IDLE && 0 < newPrio <= PRIO_MAX && newPrio >= mot && Depasse(s, Chaine(s, ProcActivables), newPrio)
    case SysKill(pid) => Endeuille(s, pid) && Surpasse(s, s.procs[pid].pere)
    case SysSdelete(sid) => sid in s.sems && Depasse(s, Chaine(s, AttenteSem(sid)), Elu(s).prio)
    case SysSreset(sid, count) => sid in s.sems && count >= 0 && Depasse(s, Chaine(s, AttenteSem(sid)), Elu(s).prio)
    case SysSignal(sid) => sid in s.sems && Depasse(s, Premiers(Chaine(s, AttenteSem(sid)), 1), Elu(s).prio)
    case SysSignaln(sid, n) =>
      sid in s.sems && 0 <= n <= SHORTINT_MAX - s.sems[sid]
      && Depasse(s, Premiers(Chaine(s, AttenteSem(sid)), n), Elu(s).prio)
    case Clavier => Depasse(s, Premiers(Chaine(s, ProcBloqueEs), 1), Elu(s).prio)
    case _ => false
  }

  lemma ToutesWaitpidRang(s: Noyau, pid: int)
    requires Inv(s) && Preeminent(s) && s.elu != IDLE
    ensures !Waitpid(s, pid).Panique? && Preeminent(Waitpid(s, pid).s)
  {
    hide BoucleWaitpid, Waitpid, Preeminent;
    WaitpidInv(s, pid);
    if if pid >= 0 then pid in Elu(s).fils else Elu(s).fils != [] {
      BoucleWaitpidRang(s, pid);
    }
  }

  lemma PcreateRang(s: Noyau, maxMsg: int)
    requires Preeminent(s)
    ensures Pcreate(s, maxMsg).Rend? && Preeminent(Pcreate(s, maxMsg).s)
  {
    assert Chaine(Pcreate(s, maxMsg).s, ProcActivables) == Chaine(s, ProcActivables);
  }

  lemma SemRang(s: Noyau, a: Appel)
    requires Inv(s) && Bornes(s) && Preeminent(s) && Legal(s, a) && !Faire(s, a).Panique?
    requires a.SysScreate? || a.SysSdelete? || a.SysSreset? || a.SysSignal? || a.SysSignaln? || a.SysTryWait? || a.SysWait?
    ensures Preeminent(Faire(s, a).s) <==> !Laisse(s, a)
  {
    hide Screate, Signal, Signaux, TryWait, Wait, ReveillerListe, Inv, Preeminent, Depasse;
    match a {
      case SysScreate(count) => ScreateInv(s, count);
      case SysSdelete(sid) => if sid in s.sems { SdeleteRang(s, sid); }
      case SysSreset(sid, count) => if sid in s.sems && count >= 0 { SresetRang(s, sid, count); }
      case SysSignal(sid) => if sid in s.sems { SignalRang(s, sid); } else { SignalAbsent(s, sid); }
      case SysSignaln(sid, n) =>
        if sid in s.sems && 0 <= n <= SHORTINT_MAX - s.sems[sid] { SignauxRang(s, sid, n); } else { SignauxVide(s, sid, if n < 0 then n else 0); }
      case SysTryWait(sid) => TryWaitInv(s, sid);
      case SysWait(sid) => WaitInv(s, sid);
      case _ =>
    }
  }

  lemma PremierClavier(s: Noyau)
    ensures Chaine(s, ProcBloqueEs)[..if Chaine(s, ProcBloqueEs) == [] then 0 else 1] == Premiers(Chaine(s, ProcBloqueEs), 1)
  {
  }

  lemma AutresRang(s: Noyau, a: Appel)
    requires Inv(s) && Preeminent(s) && Legal(s, a) && !Faire(s, a).Panique?
    requires !(a.SysScreate? || a.SysSdelete? || a.SysSreset? || a.SysSignal? || a.SysSignaln? || a.SysTryWait? || a.SysWait?)
    ensures Preeminent(Faire(s, a).s) <==> !Laisse(s, a)
  {
    hide Start, Chprio, Exit, Kill, Waitpid, WaitClock, ConsReadBloque, ConsReadLu, Pcreate, Pdelete, Preset, Psend, Preceive;
    hide Screate, Sdelete, Sreset, Signal, Signaln, TryWait, Wait, Reprendre, VerifieReveille, Ordonnanceur, VerifieEs;
    hide Inv, Preeminent, Depasse, Endeuille, Surpasse, Premiers;
    match a {
      case SysStart(prio, alloue) => StartInv(s, prio, alloue);
      case SysChprio(pid, newPrio, mot) => ChprioPreeminent(s, pid, newPrio, mot);
      case SysExit(retval) => ExitInv(s, retval);
      case SysKill(pid) => KillRang(s, pid);
      case SysWaitpid(pid) => ToutesWaitpidRang(s, pid);
      case SysWaitClock(ticks) => SuspensionsInv(s, ticks);
      case SysConsRead(pret) => SuspensionsInv(s, 0);
      case SysPcreate(maxMsg) => PcreateRang(s, maxMsg);
      case SysPdelete(fid) => PdeleteInv(s, fid);
      case SysPreset(fid) => PresetInv(s, fid);
      case SysPsend(fid, m) => PsendInv(s, fid, m);
      case SysPreceive(fid) => PreceiveInv(s, fid);
      case Reprise(pret) => ReprendreInv(s, pret);
      case Reveils(ticks) => VerifieReveilleExact(s, ticks);
      case Tranche => TrancheInv(s);
      case Clavier => VerifieEsInv(s); PremierClavier(s);
      case _ => PcountInv(s, a);
    }
  }

  /** "No ready process outranks the running one" survives a step exactly when the step is not
      one that wakes, or lowers, without switching. */
  lemma PrioriteGardee(s: Noyau, a: Appel)
    requires Inv(s) && Bornes(s) && Preeminent(s) && Legal(s, a) && !Faire(s, a).Panique?
    ensures Preeminent(Faire(s, a).s) <==> !Laisse(s, a)
  {
    hide Faire, Inv, Bornes, Preeminent, Laisse;
    if a.SysScreate? || a.SysSdelete? || a.SysSreset? || a.SysSignal? || a.SysSignaln? || a.SysTryWait? || a.SysWait? {
      SemRang(s, a);
    } else {
      AutresRang(s, a);
    }
  }
}
