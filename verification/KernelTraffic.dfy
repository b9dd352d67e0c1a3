/** What goes into a message queue or a semaphore, and what comes out, step by step. */
module KernelTraffic {
  import opened PriorityQueue
  import opened KernelState
  import opened KernelMoves
  import opened KernelReap
  import opened KernelSched
  import opened KernelWake
  import opened KernelFiles
  import opened KernelSem
  import opened KernelStart
  import opened KernelDeath
  import opened KernelClock
  import opened KernelFrames
  import opened KernelSteps

  // ----- Messages -----------------------------------------------------------------------------

  /** The messages stored in queue `fid`. */
  function Tampon(s: Noyau, fid: int): seq<int> {
    if fid in s.files then s.files[fid].queueMsg else []
  }

  /** The messages queue `fid` takes charge of in a step: that of a psend that returns 0 at once,
      or that of the sender preceive releases. */
  function Acceptes(s: Noyau, a: Appel, fid: int): seq<int> {
    if fid !in s.files then []
    else match a
      case SysPsend(f, m) =>
        if f == fid && s.elu in s.procs && Psend(s, f, m).Rend? && Psend(s, f, m).code == 0 then [m] else []
      case SysPreceive(f) =>
        var q := Chaine(s, AttenteFile(fid));
        if f == fid && Tampon(s, fid) != [] && q != [] && q[0] in s.procs then [s.procs[q[0]].fileValue] else []
      case _ => []
  }

  /** The messages handed over: the value a preceive returns at once, or the value put into the
      receiver that psend releases. */
  function Livres(s: Noyau, a: Appel, fid: int): seq<int> {
    if fid !in s.files then []
    else match a
      case SysPsend(f, m) => if f == fid && Tampon(s, fid) == [] && Chaine(s, AttenteFile(fid)) != [] then [m] else []
      case SysPreceive(f) =>
        if f == fid && s.elu in s.procs && Preceive(s, f).Rend? && Preceive(s, f).code == 0 then [Preceive(s, f).valeur] else []
      case _ => []
  }

  lemma PsendFiles(s: Noyau, fid: int, m: int)
    requires Inv(s) && s.elu != IDLE && fid in s.files
    ensures var i, q, f := Psend(s, fid, m), Chaine(s, AttenteFile(fid)), s.files[fid];
      && !i.Panique?
      && (i.Rend? ==> i.code == 0)
      && i.s.files == (if i.Suspend? || q != [] then s.files else s.files[fid := f.(queueMsg := f.queueMsg + [m])])
      && (i.Suspend? ==> q == [] || f.queueMsg != [])
      && (q != [] && i.Rend? ==> f.queueMsg == [])
  {
    hide Reveil, Finir, Ordonnanceur, Deplacer, Tri, Table, SemsIntacts;
    var f, q := s.files[fid], Chaine(s, AttenteFile(fid));
    if q != [] { TeteEnAttente(s, fid); }
    if (f.queueMsg != [] || q == []) && |f.queueMsg| == f.maxMsg {
      SuspendreIntact(s, Elu(s).(etat := ATTEND_FILE, fid := fid, fileValue := m, operationStatus := 1, suite := DansPsend),
                      AttenteFile(fid));
    } else if f.queueMsg == [] && q != [] {
      var rec := Elu(s).(fileValue := m, operationStatus := 1);
      var p, s0 := s.procs[q[0]], Maj(s, s.elu, rec);
      MajEluInv(s, rec);
      ReveilFinirIntact(s0, q[0], p.(fid := -1, fileValue := m, operationStatus := 1), p.prio > Elu(s).prio);
    }
  }

  lemma PreceiveFiles(s: Noyau, fid: int)
    requires Inv(s) && s.elu != IDLE && fid in s.files
    ensures var i, q, f := Preceive(s, fid), Chaine(s, AttenteFile(fid)), s.files[fid];
      && !i.Panique?
      && (if f.queueMsg == [] then i.Suspend? && i.s.files == s.files
          else
            && i.Rend? && i.code == 0 && i.valeur == f.queueMsg[0]
            && i.s.files == s.files[fid := f.(queueMsg := f.queueMsg[1..] + Acceptes(s, SysPreceive(fid), fid))])
  {
    hide Reveil, Finir, Ordonnanceur, Deplacer, Tri, Table, SemsIntacts;
    var f, q := s.files[fid], Chaine(s, AttenteFile(fid));
    if f.queueMsg == [] {
      SuspendreIntact(s, Elu(s).(etat := ATTEND_FILE, fid := fid, fileValue := -1, operationStatus := 1, suite := DansPreceive),
                      AttenteFile(fid));
    } else if q != [] {
      TeteEnAttente(s, fid);
      EmetteurFiles(s, fid);
    } else {
      assert f.queueMsg[1..] + [] == f.queueMsg[1..];
    }
  }

  lemma EmetteurFiles(s: Noyau, fid: int)
    requires Inv(s) && fid in s.files && s.files[fid].queueMsg != []
    requires var q := Chaine(s, AttenteFile(fid));
      q != [] && q[0] in s.procs && q[0] != s.elu && s.procs[q[0]].etat == ATTEND_FILE
    ensures var i, f := Preceive(s, fid), s.files[fid];
      && i.Rend? && i.code == 0 && i.valeur == f.queueMsg[0]
      && i.s.files == s.files[fid := f.(queueMsg := f.queueMsg[1..] + [s.procs[Chaine(s, AttenteFile(fid))[0]].fileValue])]
  {
    hide Reveil, Finir, Tri, Table, SemsIntacts;
    var f, x, rec := s.files[fid], Chaine(s, AttenteFile(fid))[0], Elu(s).(fileValue := -1, operationStatus := 1);
    var p, s0 := s.procs[x], Maj(s, s.elu, rec);
    var msgs := f.queueMsg[1..] + [p.fileValue];
    MajEluInv(s, rec);
    MajFileInv(s0, fid, msgs);
    ReveilFinirIntact(MajFile(s0, fid, msgs), x, p.(fid := -1, operationStatus := 1), p.prio > Elu(s).prio);
  }

  lemma VidageFiles(s: Noyau, fid: int)
    requires Inv(s) && fid in s.files
    ensures Preset(s, fid).Rend? && Preset(s, fid).s.files == s.files[fid := s.files[fid].(queueMsg := [])]
    ensures Pdelete(s, fid).Rend? && Pdelete(s, fid).s.files == s.files - {fid}
  {
    hide ReveillerListe, Finir, SemsIntacts;
    var r := AttenteFile(fid);
    var s1, commute := ReveillerListe(s, Chaine(s, r), 0), Depasse(s, Chaine(s, r), Elu(s).prio);
    ViderReste(s, r, 0);
    MajFileInv(s1, fid, []);
    FinirIntact(MajFile(s1, fid, []), commute);
    RetireeCoherent(s1, fid);
    FinirIntact(Retiree(s1, fid), commute);
  }

  lemma ViderReste(s: Noyau, r: Anneau, status: int)
    requires Inv(s) && FileDAttente(r)
    ensures var s1 := ReveillerListe(s, Chaine(s, r), status);
      Coherent(s1) && s1.elu == s.elu && s1.procs[s1.elu].etat == ELU && s1.files == s.files && s1.sems == s.sems
      && Chaine(s1, r) == [] && (forall r' :: r' != r && r' != ProcActivables ==> Chaine(s1, r') == Chaine(s, r'))
  {
    hide ReveillerListe;
    ReveillerListeEffet(s, r, status);
  }

  lemma SignalFiles(s: Noyau, sid: int)
    requires !Signal(s, sid).Panique?
    ensures Signal(s, sid).s.files == s.files
  {
  }

  lemma {:induction false} SignauxFiles(s: Noyau, sid: int, n: int)
    requires !Signaux(s, sid, n).Panique?
    ensures Signaux(s, sid, n).s.files == s.files
    decreases n
  {
    hide Signal;
    if n > 0 && Signal(s, sid).Rend? {
      SignalFiles(s, sid);
      SignauxFiles(Signal(s, sid).s, sid, n - 1);
    }
  }

  lemma SemFiles(s: Noyau, a: Appel)
    requires Inv(s) && Legal(s, a) && !Faire(s, a).Panique?
    requires a.SysScreate? || a.SysSdelete? || a.SysSreset? || a.SysSignal? || a.SysSignaln? || a.SysTryWait? || a.SysWait?
    ensures Faire(s, a).s.files == s.files
  {
    hide Signal, Signaux, ReveillerListe, Wait, Inv;
    match a {
      case SysSdelete(sid) => if sid in s.sems { ViderReste(s, AttenteSem(sid), -3); }
      case SysSreset(sid, count) => if sid in s.sems { ViderReste(s, AttenteSem(sid), -4); }
      case SysSignal(sid) => SignalFiles(s, sid);
      case SysSignaln(sid, n) => if sid in s.sems && s.sems[sid] <= SHORTINT_MAX - n { SignauxFiles(s, sid, n); }
      case SysWait(sid) => WaitFiles(s, sid);
      case _ =>
    }
  }

  lemma SuspendreFiles(s: Noyau, rec: Processus, r: Anneau)
    requires Inv(s) && s.elu != IDLE
    requires rec.prio == Elu(s).prio && rec.pere == Elu(s).pere && rec.fils == Elu(s).fils && AttenteFondee(rec)
    requires EnAttente(rec.etat) && Accord(rec.(chainage := Dans(r))) && Admis(s, rec, r)
    ensures Ordonnanceur(Deplacer(s, s.elu, rec, r)).files == s.files
  {
    hide Ordonnanceur, Deplacer;
    var s1 := Deplacer(s, s.elu, rec, r);
    DeplacerCoherent(s, s.elu, rec, r);
    DeplacerEffet(s, s.elu, rec, r);
    DeplacerReste(s, s.elu, rec, r);
    EluSauf(s1);
    OrdonnanceurAutres(s1, AttenteFile(0));
  }

  lemma WaitFiles(s: Noyau, sid: int)
    requires Inv(s) && s.elu != IDLE
    ensures !Wait(s, sid).Panique? && Wait(s, sid).s.files == s.files
  {
    hide Deplacer, Ordonnanceur, Inv, Coherent, Admis, Accord, AttenteFondee;
    if sid in s.sems && s.sems[sid] > SHORTINT_MIN {
      WaitEnAttente(s, sid);
      if s.sems[sid] - 1 < 0 {
        SuspendreFiles(MajSem(s, sid, s.sems[sid] - 1), Elu(s).(etat := ATTEND_SEMAPHORE, suite := DansWait), AttenteSem(sid));
      }
    }
  }

  lemma ReprendreFiles(s: Noyau, pret: bool)
    requires Inv(s) && s.elu != IDLE
    ensures !Reprendre(s, pret).Panique? && Reprendre(s, pret).s.files == s.files
  {
    hide BoucleWaitpid, ConsReadBloque, Inv, SemsIntacts;
    SansAttente(s);
    match Elu(s).suite {
      case DansWaitpid(cible) => CibleDuFils(s); BoucleWaitpidIntact(s, cible);
      case DansConsRead => if !pret { FormeSuspensions(s, 0); HorlogeIntact(s, 0); }
      case _ =>
    }
  }

  lemma WaitpidFiles(s: Noyau, pid: int)
    requires Inv(s) && s.elu != IDLE
    ensures !Waitpid(s, pid).Panique? && Waitpid(s, pid).s.files == s.files
  {
    hide BoucleWaitpid, Waitpid;
    WaitpidInv(s, pid);
    if if pid >= 0 then pid in Elu(s).fils else Elu(s).fils != [] {
      BoucleWaitpidIntact(s, pid);
    }
  }

  lemma TrancheFiles(s: Noyau)
    requires Inv(s)
    ensures Ordonnanceur(s).files == s.files
  {
    EluSauf(s);
    OrdonnanceurIntact(s);
  }

  /** A step that is not about any message queue. */
  lemma AutresFiles(s: Noyau, a: Appel)
    requires Inv(s) && Legal(s, a) && !Faire(s, a).Panique?
    requires !(a.SysPsend? || a.SysPreceive? || a.SysPreset? || a.SysPdelete? || a.SysPcreate?)
    ensures Faire(s, a).s.files == s.files
  {
    hide Start, Chprio, Exit, Kill, Waitpid, WaitClock, ConsReadBloque, Pcreate, Pdelete, Preset, Psend, Preceive;
    hide Reprendre, VerifieReveille, Ordonnanceur, VerifieEs, Inv, SemsIntacts;
    match a {
      case SysStart(prio, alloue) => StartIntact(s, prio, alloue);
      case SysChprio(pid, newPrio, mot) => ChprioIntact(s, pid, newPrio, mot);
      case SysExit(retval) => ExitIntact(s, retval);
      case SysKill(pid) => KillIntact(s, pid);
      case SysWaitpid(pid) => WaitpidFiles(s, pid);
      case SysWaitClock(ticks) => HorlogeIntact(s, ticks);
      case SysConsRead(pret) => HorlogeIntact(s, 0);
      case Reprise(pret) => ReprendreFiles(s, pret);
      case Reveils(ticks) => VerifieReveilleIntact(s, ticks);
      case Tranche => TrancheFiles(s);
      case Clavier => VerifieEsIntact(s);
      case SysPcount(_, _) => PcountInv(s, a);
      case SysScount(_) => PcountInv(s, a);
      case _ => SemFiles(s, a);
    }
  }

  lemma PcreateFiles(s: Noyau, maxMsg: int, fid: int)
    requires Inv(s)
    ensures Pcreate(s, maxMsg).Rend? && Tampon(Pcreate(s, maxMsg).s, fid) == Tampon(s, fid)
    ensures fid in s.files ==> fid in Pcreate(s, maxMsg).s.files
  {
    if s.fidsLibres != [] { assert s.fidsLibres[0] in s.fidsLibres; }
  }

  lemma TamponPareil(s: Noyau, s': Noyau, fid: int)
    requires s'.files == s.files
    ensures Tampon(s', fid) == Tampon(s, fid) && (fid in s'.files <==> fid in s.files)
  {
  }

  /** Nothing is lost, duplicated or reordered: what a queue held, followed by what it accepts,
      is what it delivers, followed by what it then holds.  preset and pdelete throw the
      messages away. */
  lemma MessagesConserves(s: Noyau, a: Appel, fid: int)
    requires Inv(s) && Legal(s, a) && !Faire(s, a).Panique?
    ensures var s' := Faire(s, a).s;
      if fid in s.files && (a == SysPreset(fid) || a == SysPdelete(fid)) then Tampon(s', fid) == []
      else Tampon(s, fid) + Acceptes(s, a, fid) == Livres(s, a, fid) + Tampon(s', fid)
  {
    hide Faire, Pcreate, Preset, Pdelete, Psend, Preceive, Inv, Acceptes, Livres;
    if a.SysPsend? || a.SysPreceive? || a.SysPreset? || a.SysPdelete? || a.SysPcreate? {
      FileConserve(s, a, fid);
    } else {
      AutresFiles(s, a);
      TamponPareil(s, Faire(s, a).s, fid);
      RienEchange(s, a, fid);
    }
  }

  lemma RienEchange(s: Noyau, a: Appel, fid: int)
    requires fid !in s.files || (!(a.SysPsend? && a.fid == fid) && !(a.SysPreceive? && a.fid == fid))
    ensures Acceptes(s, a, fid) == [] && Livres(s, a, fid) == []
  {
  }

  lemma FileConserve(s: Noyau, a: Appel, fid: int)
    requires Inv(s) && Legal(s, a) && !Faire(s, a).Panique?
    requires a.SysPsend? || a.SysPreceive? || a.SysPreset? || a.SysPdelete? || a.SysPcreate?
    ensures var s' := Faire(s, a).s;
      if fid in s.files && (a == SysPreset(fid) || a == SysPdelete(fid)) then Tampon(s', fid) == []
      else Tampon(s, fid) + Acceptes(s, a, fid) == Livres(s, a, fid) + Tampon(s', fid)
  {
    hide Pcreate, Preset, Pdelete, Psend, Preceive, Inv, Acceptes, Livres;
    match a {
      case SysPcreate(maxMsg) => PcreateFiles(s, maxMsg, fid); RienEchange(s, a, fid);
      case SysPreset(f) =>
        RienEchange(s, a, fid);
        if f in s.files { VidageFiles(s, f); } else { FileAbsente(s, f, 0); }
      case SysPdelete(f) =>
        RienEchange(s, a, fid);
        if f in s.files { VidageFiles(s, f); } else { FileAbsente(s, f, 0); }
      case SysPsend(f, m) =>
        if f !in s.files { FileAbsente(s, f, m); RienEchange(s, a, fid); }
        else if f != fid { PsendFiles(s, f, m); RienEchange(s, a, fid); }
        else { PsendConserve(s, fid, m); }
      case SysPreceive(f) =>
        if f !in s.files { FileAbsente(s, f, 0); RienEchange(s, a, fid); }
        else if f != fid { PreceiveFiles(s, f); RienEchange(s, a, fid); }
        else { PreceiveConserve(s, fid); }
      case _ =>
    }
  }

  lemma FileAbsente(s: Noyau, fid: int, m: int)
    requires s.elu in s.procs && fid !in s.files
    ensures Preset(s, fid) == Rend(s, -1, 0) && Pdelete(s, fid) == Rend(s, -1, 0)
    ensures Psend(s, fid, m) == Rend(s, -1, 0) && Preceive(s, fid) == Rend(s, -1, 0)
  {
  }

  lemma PsendConserve(s: Noyau, fid: int, m: int)
    requires Inv(s) && s.elu != IDLE && fid in s.files
    ensures var i, a := Psend(s, fid, m), SysPsend(fid, m);
      && !i.Panique?
      && Tampon(s, fid) + Acceptes(s, a, fid) == Livres(s, a, fid) + Tampon(i.s, fid)
  {
    hide Psend;
    PsendFiles(s, fid, m);
  }

  lemma PreceiveConserve(s: Noyau, fid: int)
    requires Inv(s) && s.elu != IDLE && fid in s.files
    ensures var i, a := Preceive(s, fid), SysPreceive(fid);
      && !i.Panique?
      && Tampon(s, fid) + Acceptes(s, a, fid) == Livres(s, a, fid) + Tampon(i.s, fid)
  {
    hide Preceive, Inv;
    InvElu(s);
    PreceiveFiles(s, fid);
    var f := s.files[fid];
    if f.queueMsg != [] { assert f.queueMsg == [f.queueMsg[0]] + f.queueMsg[1..]; }
  }

  // ----- Semaphores -----------------------------------------------------------------------------

  /** What a step adds to the count of `sid`, judging by what the call answers: a wait that
      blocks has taken its unit. */
  function Apport(s: Noyau, a: Appel, sid: int): int {
    if s.elu !in s.procs then 0
    else match a
      case SysSignal(k) => if k == sid && Signal(s, k).Rend? && Signal(s, k).code == 0 then 1 else 0
      case SysSignaln(k, n) => if k == sid && n >= 0 && Signaln(s, k, n).Rend? && Signaln(s, k, n).code == 0 then n else 0
      case SysTryWait(k) => if k == sid && TryWait(s, k).Rend? && TryWait(s, k).code == 0 then -1 else 0
      case SysWait(k) => if k == sid && (Wait(s, k).Rend? ==> Wait(s, k).code == 0) then -1 else 0
      case _ => 0
  }

  /** The process that joins the waiting list of `sid`. */
  function Entrant(s: Noyau, a: Appel, sid: int): seq<int> {
    if a == SysWait(sid) && s.elu in s.procs && Wait(s, sid).Suspend? then [s.elu] else []
  }

  /** The processes that leave it: as many of the oldest as the step adds units. */
  function Sortants(s: Noyau, a: Appel, sid: int): seq<int> {
    var n := Apport(s, a, sid);
    if n > 0 then Premiers(Chaine(s, AttenteSem(sid)), n) else []
  }

  /** The count of `sid` and its waiting list after a step that moves `n` units. */
  ghost predicate Bilan(s: Noyau, a: Appel, sid: int, s': Noyau) {
    && sid in s.sems && sid in s'.sems && s'.sems[sid] == s.sems[sid] + Apport(s, a, sid)
    && Chaine(s, AttenteSem(sid)) + Entrant(s, a, sid) == Sortants(s, a, sid) + Chaine(s', AttenteSem(sid))
  }

  /** Steps that set the count of `sid` afresh. */
  predicate Reinitialise(a: Appel, sid: int) {
    a == SysSdelete(sid) || (a.SysSreset? && a.sid == sid)
  }

  lemma SignalBilan(s: Noyau, sid: int)
    requires Inv(s) && Bornes(s) && sid in s.sems && !Signal(s, sid).Panique?
    ensures Bilan(s, SysSignal(sid), sid, Signal(s, sid).s)
  {
    hide Signal, Inv;
    SignalEffet(s, sid);
    var q := Chaine(s, AttenteSem(sid));
    InvElu(s);
    if s.sems[sid] != SHORTINT_MAX && q != [] { assert q == Premiers(q, 1) + q[1..]; }
  }

  lemma InvElu(s: Noyau)
    requires Inv(s)
    ensures s.elu in s.procs
  {
  }

  lemma SignalnBilan(s: Noyau, sid: int, n: int)
    requires Inv(s) && Bornes(s) && sid in s.sems && !Signaln(s, sid, n).Panique?
    ensures Bilan(s, SysSignaln(sid, n), sid, Signaln(s, sid, n).s)
  {
    hide Signaux, Inv, Bornes;
    InvElu(s);
    if n >= 0 {
      SignalnAtomique(s, sid, n);
      var q := Chaine(s, AttenteSem(sid));
      assert q == Premiers(q, n) + q[|Premiers(q, n)|..];
    } else {
      SignauxVide(s, sid, n);
    }
  }

  lemma WaitBilan(s: Noyau, sid: int)
    requires Inv(s) && s.elu != IDLE && sid in s.sems
    ensures !Wait(s, sid).Panique? && Bilan(s, SysWait(sid), sid, Wait(s, sid).s)
  {
    hide Wait, Inv;
    InvElu(s);
    WaitEffet(s, sid);
    if s.sems[sid] > SHORTINT_MIN && s.sems[sid] > 0 {
      assert Chaine(MajSem(s, sid, s.sems[sid] - 1), AttenteSem(sid)) == Chaine(s, AttenteSem(sid));
    }
  }

  lemma TryWaitBilan(s: Noyau, sid: int)
    requires s.elu in s.procs && sid in s.sems
    ensures TryWait(s, sid).Rend? && Bilan(s, SysTryWait(sid), sid, TryWait(s, sid).s)
  {
    assert Chaine(TryWait(s, sid).s, AttenteSem(sid)) == Chaine(s, AttenteSem(sid));
  }

  /** The semaphore `sid` is the same before and after. */
  ghost predicate SemIntact(s: Noyau, s': Noyau, sid: int) {
    sid in s.sems && sid in s'.sems && s'.sems[sid] == s.sems[sid] && Chaine(s', AttenteSem(sid)) == Chaine(s, AttenteSem(sid))
  }

  lemma SansApport(s: Noyau, a: Appel, sid: int, s': Noyau)
    requires SemIntact(s, s', sid)
    requires !(a == SysSignal(sid)) && !(a.SysSignaln? && a.sid == sid) && a != SysTryWait(sid) && a != SysWait(sid)
    ensures Bilan(s, a, sid, s')
  {
  }

  /** Calls about another semaphore. */
  lemma AutreSem(s: Noyau, a: Appel, sid: int)
    requires Inv(s) && Bornes(s) && Legal(s, a) && !Faire(s, a).Panique? && sid in s.sems && !Reinitialise(a, sid)
    requires a.SysScreate? || ((a.SysSdelete? || a.SysSreset? || a.SysSignal? || a.SysSignaln? || a.SysTryWait? || a.SysWait?) && a.sid != sid)
    ensures SemIntact(s, Faire(s, a).s, sid)
  {
    hide Signal, Signaln, Screate, Sdelete, Sreset, TryWait, Wait, Inv, Bornes, SemIntact, Chaine;
    match a {
      case SysScreate(count) => ScreateAutre(s, count, sid);
      case SysSdelete(k) => VidageAutre(s, k, 0, sid);
      case SysSreset(k, count) => VidageAutre(s, k, count, sid);
      case SysSignal(k) => SignauxAutre(s, k, 0, sid);
      case SysSignaln(k, n) => SignauxAutre(s, k, n, sid);
      case SysTryWait(k) => TryWaitAutre(s, k, sid);
      case SysWait(k) => WaitAutre(s, k, sid);
      case _ =>
    }
  }

  lemma VidageAutre(s: Noyau, k: int, count: int, sid: int)
    requires Inv(s) && sid in s.sems && k != sid && count <= SHORTINT_MAX
    ensures Sdelete(s, k).Rend? && SemIntact(s, Sdelete(s, k).s, sid)
    ensures Sreset(s, k, count).Rend? && SemIntact(s, Sreset(s, k, count).s, sid)
  {
    hide ReveillerListe, Inv;
    if k in s.sems {
      ViderReste(s, AttenteSem(k), -3);
      ViderReste(s, AttenteSem(k), -4);
      VideAutre(s, k, -3, 0, sid);
      VideAutre(s, k, -4, count, sid);
    }
  }

  lemma SignauxAutre(s: Noyau, k: int, n: int, sid: int)
    requires Inv(s) && Bornes(s) && sid in s.sems && k != sid
    ensures !Signal(s, k).Panique? ==> SemIntact(s, Signal(s, k).s, sid)
    ensures !Signaln(s, k, n).Panique? ==> SemIntact(s, Signaln(s, k, n).s, sid)
  {
    hide Signal, Inv, Bornes;
    if !Signal(s, k).Panique? {
      if k in s.sems { SignalEffet(s, k); } else { SignalAbsent(s, k); }
    }
    if !Signaln(s, k, n).Panique? {
      if k in s.sems && n >= 0 { SignalnAtomique(s, k, n); } else { SignauxVide(s, k, if n < 0 then n else 0); }
    }
  }

  lemma WaitAutre(s: Noyau, k: int, sid: int)
    requires Inv(s) && s.elu != IDLE && sid in s.sems && k != sid
    ensures s.elu in s.procs && !Wait(s, k).Panique? ==> SemIntact(s, Wait(s, k).s, sid)
  {
    hide Wait, Inv;
    EluLibre(s);
    if k in s.sems { WaitEffet(s, k); } else { WaitAbsent(s, k); }
  }

  lemma WaitAbsent(s: Noyau, sid: int)
    requires s.elu in s.procs && sid !in s.sems
    ensures Wait(s, sid) == Rend(s, -1, 0)
  {
  }

  lemma TryWaitAutre(s: Noyau, k: int, sid: int)
    requires k != sid && sid in s.sems
    ensures TryWait(s, k).Rend? && SemIntact(s, TryWait(s, k).s, sid)
  {
    assert Chaine(TryWait(s, k).s, AttenteSem(sid)) == Chaine(s, AttenteSem(sid));
  }

  lemma VideAutre(s: Noyau, k: int, status: int, count: int, sid: int)
    requires k != sid && sid in s.sems && k in s.sems
    requires var s1 := ReveillerListe(s, Chaine(s, AttenteSem(k)), status);
      s1.sems == s.sems && Chaine(s1, AttenteSem(sid)) == Chaine(s, AttenteSem(sid))
    ensures var s1 := ReveillerListe(s, Chaine(s, AttenteSem(k)), status);
      SemIntact(s, SemRetire(s1, k), sid) && SemIntact(s, MajSem(s1, k, count), sid)
  {
    hide ReveillerListe;
    var s1 := ReveillerListe(s, Chaine(s, AttenteSem(k)), status);
    assert Chaine(SemRetire(s1, k), AttenteSem(sid)) == Chaine(s1, AttenteSem(sid));
    assert Chaine(MajSem(s1, k, count), AttenteSem(sid)) == Chaine(s1, AttenteSem(sid));
  }

  lemma ScreateAutre(s: Noyau, count: int, sid: int)
    requires Inv(s) && sid in s.sems
    ensures Screate(s, count).Rend? && SemIntact(s, Screate(s, count).s, sid)
  {
    assert Chaine(Screate(s, count).s, AttenteSem(sid)) == Chaine(s, AttenteSem(sid));
    if s.sidsLibres != [] { assert s.sidsLibres[0] in s.sidsLibres; }
  }

  lemma IntactSem(s: Noyau, s': Noyau, sid: int)
    requires SemsIntacts(s, s') && sid in s.sems
    ensures SemIntact(s, s', sid)
  {
  }

  /** kill of a process that waits on this semaphore. */
  predicate TueSurSem(s: Noyau, a: Appel, sid: int) {
    TueEnAttente(s, a) && s.procs[a.pid].chainage == Dans(AttenteSem(sid))
  }

  lemma TueAilleurs(s: Noyau, a: Appel, sid: int)
    requires Inv(s) && a.SysKill? && Legal(s, a) && !Faire(s, a).Panique? && sid in s.sems && !TueSurSem(s, a, sid)
    ensures SemIntact(s, Faire(s, a).s, sid)
  {
    hide Kill, Without;
    KillChaines(s, a.pid, sid);
    WithoutAbsent(Chaine(s, AttenteSem(sid)), a.pid);
  }

  /** The account of a semaphore, as long as none of its own waiters is killed: its count moves by
      exactly what signal, signaln, try_wait and wait say they did, its waiting list loses its
      oldest members and grows at the other end. */
  lemma SemaphoreTenu(s: Noyau, a: Appel, sid: int)
    requires Inv(s) && Bornes(s) && Legal(s, a) && !Faire(s, a).Panique? && sid in s.sems
    requires !TueSurSem(s, a, sid) && !Reinitialise(a, sid)
    ensures Bilan(s, a, sid, Faire(s, a).s)
  {
    hide Faire, Inv, Bornes, Bilan, SemIntact, SemsIntacts, Signal, Signaln, TryWait, Wait, Reprendre;
    if a.SysScreate? || ((a.SysSdelete? || a.SysSreset? || a.SysSignal? || a.SysSignaln? || a.SysTryWait? || a.SysWait?) && a.sid != sid) {
      AutreSem(s, a, sid);
      SansApport(s, a, sid, Faire(s, a).s);
    } else if a.SysSignal? || a.SysSignaln? || a.SysTryWait? || a.SysWait? {
      CetteSem(s, a, sid);
    } else if a.SysKill? {
      TueAilleurs(s, a, sid);
      SansApport(s, a, sid, Faire(s, a).s);
    } else {
      SemsLaisses(s, a);
      IntactSem(s, Faire(s, a).s, sid);
      SansApport(s, a, sid, Faire(s, a).s);
    }
  }

  lemma CetteSem(s: Noyau, a: Appel, sid: int)
    requires Inv(s) && Bornes(s) && Legal(s, a) && !Faire(s, a).Panique? && sid in s.sems
    requires (a.SysSignal? || a.SysSignaln? || a.SysTryWait? || a.SysWait?) && a.sid == sid
    ensures Bilan(s, a, sid, Faire(s, a).s)
  {
    hide Inv, Bornes, Bilan, Signal, Signaln, TryWait, Wait;
    match a {
      case SysSignal(_) => SignalBilan(s, sid);
      case SysSignaln(_, n) => SignalnBilan(s, sid, n);
      case SysTryWait(_) => TryWaitBilan(s, sid);
      case SysWait(_) => WaitBilan(s, sid);
      case _ =>
    }
  }

  /** Only a wait that finds no unit left joins the waiting list, and a try_wait takes none then. */
  lemma FormeSem(s: Noyau, a: Appel, sid: int)
    requires Inv(s) && Legal(s, a) && !Faire(s, a).Panique? && sid in s.sems
    ensures Apport(s, a, sid) >= 0 ==> Entrant(s, a, sid) == []
    ensures Apport(s, a, sid) < 0 ==>
      Apport(s, a, sid) == -1 && |Entrant(s, a, sid)| == if s.sems[sid] <= 0 then 1 else 0
  {
    hide Inv, Wait, Signal, Signaln;
    if a == SysWait(sid) { WaitEffet(s, sid); }
  }

  /** So a count that tells the truth goes on telling it, whatever happens to other semaphores. */
  lemma BilanCompte(s: Noyau, a: Appel, sid: int)
    requires Inv(s) && Bornes(s) && Legal(s, a) && !Faire(s, a).Panique? && sid in s.sems && Compte(s, sid)
    requires !TueSurSem(s, a, sid) && !Reinitialise(a, sid)
    ensures sid in Faire(s, a).s.sems && Compte(Faire(s, a).s, sid)
  {
    hide Faire, Inv, Signal, Signaln, TryWait, Wait;
    SemaphoreTenu(s, a, sid);
    FormeSem(s, a, sid);
  }

  // ----- A semaphore as a plain counter -------------------------------------------------------------

  /** The units nobody has taken. */
  function Unites(s: Noyau, sid: int): int
    requires sid in s.sems
  {
    if s.sems[sid] > 0 then s.sems[sid] else 0
  }

  /** The units a step brings ... */
  function Verse(s: Noyau, a: Appel, sid: int): nat {
    if Apport(s, a, sid) > 0 then Apport(s, a, sid) else 0
  }

  /** ... and the waits it lets through: one that does not block, and those it releases. */
  function Passages(s: Noyau, a: Appel, sid: int): nat {
    |Sortants(s, a, sid)| + if Apport(s, a, sid) < 0 && Entrant(s, a, sid) == [] then 1 else 0
  }

  /** Every wait that goes through takes one unit, and nobody waits while one is left. */
  lemma UnitesTenues(s: Noyau, a: Appel, sid: int)
    requires Inv(s) && Bornes(s) && Legal(s, a) && !Faire(s, a).Panique? && sid in s.sems && Compte(s, sid)
    requires !TueSurSem(s, a, sid) && !Reinitialise(a, sid)
    ensures var s' := Faire(s, a).s;
      && sid in s'.sems && Unites(s', sid) == Unites(s, sid) + Verse(s, a, sid) - Passages(s, a, sid)
      && (Chaine(s', AttenteSem(sid)) != [] ==> Unites(s', sid) == 0)
  {
    hide Faire, Inv, Apport, Entrant, Sortants;
    SemaphoreTenu(s, a, sid);
    FormeSem(s, a, sid);
    BilanCompte(s, a, sid);
    SansSortant(s, a, sid);
    var s' := Faire(s, a).s;
    var q, q' := Chaine(s, AttenteSem(sid)), Chaine(s', AttenteSem(sid));
    assert |q + Entrant(s, a, sid)| == |Sortants(s, a, sid) + q'|;
  }

  lemma SansSortant(s: Noyau, a: Appel, sid: int)
    ensures Apport(s, a, sid) <= 0 ==> Sortants(s, a, sid) == []
  {
    hide Apport;
  }

  // ----- What killed waiters leave behind -----------------------------------------------------------

  /** How many waiters the count of `sid` promises that are not there. */
  function Manque(s: Noyau, sid: int): int
    requires sid in s.sems
  {
    (if s.sems[sid] < 0 then -s.sems[sid] else 0) - |Chaine(s, AttenteSem(sid))|
  }

  function Victimes(s: Noyau, a: Appel, sid: int): nat {
    if TueSurSem(s, a, sid) then 1 else 0
  }

  /** The count of a semaphore tells the truth exactly when none is missing. */
  lemma ManqueNul(s: Noyau, sid: int)
    requires sid in s.sems
    ensures Compte(s, sid) <==> Manque(s, sid) == 0
    ensures Borne(s, sid) <==> Manque(s, sid) >= 0
  {
  }

  /** No step that goes well, other than the kill of a waiter or setting the count afresh, changes
      how many are missing: a signal that would have to be spent on one of them goes wrong. */
  lemma ManqueTenu(s: Noyau, a: Appel, sid: int)
    requires Inv(s) && Bornes(s) && Legal(s, a) && !Faire(s, a).Panique? && sid in s.sems && !Reinitialise(a, sid)
    ensures sid in Faire(s, a).s.sems && Manque(Faire(s, a).s, sid) == Manque(s, sid) + Victimes(s, a, sid)
  {
    hide Faire, Inv, Bornes, Apport, Entrant, Sortants;
    if TueSurSem(s, a, sid) {
      TueIci(s, a, sid);
    } else {
      SemaphoreTenu(s, a, sid);
      FormeSem(s, a, sid);
      SansSortant(s, a, sid);
      SortantsTous(s, a, sid);
      var q, q' := Chaine(s, AttenteSem(sid)), Chaine(Faire(s, a).s, AttenteSem(sid));
      assert |q + Entrant(s, a, sid)| == |Sortants(s, a, sid) + q'|;
    }
  }

  lemma TueIci(s: Noyau, a: Appel, sid: int)
    requires Inv(s) && Legal(s, a) && !Faire(s, a).Panique? && TueSurSem(s, a, sid)
    ensures Faire(s, a).s.sems == s.sems
    ensures |Chaine(Faire(s, a).s, AttenteSem(sid))| == |Chaine(s, AttenteSem(sid))| - 1
  {
    hide Kill;
    KillChaines(s, a.pid, sid);
    assert a.pid in Chaine(s, AttenteSem(sid));
  }

  /** Units that are brought while somebody waits, or is said to, release as many waiters. */
  lemma SortantsTous(s: Noyau, a: Appel, sid: int)
    requires Inv(s) && Bornes(s) && Legal(s, a) && !Faire(s, a).Panique? && sid in s.sems
    ensures var n, q := Apport(s, a, sid), |Chaine(s, AttenteSem(sid))|;
      n > 0 ==> |Sortants(s, a, sid)| == (if n <= q then n else q) && (n <= q || s.sems[sid] + q >= 0)
    ensures |Chaine(s, AttenteSem(sid))| <= if s.sems[sid] < 0 then -s.sems[sid] else 0
  {
    hide Faire, Signal, Signaln, TryWait, Wait, Inv;
    FaireInv(s, a);
    assert Borne(s, sid);
    if a.SysSignaln? && Apport(s, a, sid) > 0 { SignalnRendu(s, sid, a.n); }
  }

  lemma SignalnRendu(s: Noyau, sid: int, n: int)
    requires sid in s.sems && Signaln(s, sid, n).Rend? && Signaln(s, sid, n).code == 0
    ensures s.sems[sid] + n <= SHORTINT_MAX
  {
  }
}
