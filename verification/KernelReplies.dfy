/** What each step answers, the tables of queues and semaphores it leaves, and when it gives the
    processor up. */
module KernelReplies {
  import opened PriorityQueue
  import opened KernelState
  import opened KernelMoves
  import opened KernelReap
  import opened KernelSched
  import opened KernelWake
  import opened KernelFiles
  import opened KernelSem
  import opened KernelStart
  import opened KernelDeath
  import opened KernelClock
  import opened KernelFrames
  import opened KernelFollow
  import opened KernelSteps
  import opened KernelTraffic
  import opened KernelAnswers
  import opened KernelWrites

  // ----- What it answers ----------------------------------------------------------------------------

  /** A dead child that waitpid may return. */
  predicate Recueillable(s: Noyau, pid: int, c: int)
    requires s.elu in s.procs
  {
    c in Elu(s).fils && c in s.procs && s.procs[c].etat == ZOMBIE && (pid < 0 || c == pid)
  }

  /** `c` is the first zombie of a list of children. */
  ghost predicate PremierMort(s: Noyau, fils: seq<int>, c: int) {
    exists k :: 0 <= k < |fils| && fils[k] == c && c in s.procs && s.procs[c].etat == ZOMBIE
      && forall j :: 0 <= j < k ==> !(fils[j] in s.procs && s.procs[fils[j]].etat == ZOMBIE)
  }

  /** waitpid on child `pid`, or on any: it returns such a child, the first in the list if any will
      do, and its exit value as soon as there is one, and sleeps as long as there is none. */
  ghost predicate RepondFils(s: Noyau, pid: int, i: Issue)
    requires s.elu in s.procs
  {
    if exists c :: Recueillable(s, pid, c) then
      i.Rend? && Recueillable(s, pid, i.code) && i.valeur == s.procs[i.code].retval && i.code !in i.s.procs && i.s.elu == s.elu
      && (pid < 0 ==> PremierMort(s, Elu(s).fils, i.code))
    else i.Suspend?
  }

  predicate PcreateValide(s: Noyau, maxMsg: int) {
    1 <= maxMsg <= MAXMSG && exists f :: 0 <= f < NBQUEUE && f !in s.files
  }

  predicate ScreateValide(s: Noyau, count: int) {
    count >= 0 && exists k :: 0 <= k < NBSEM && k !in s.sems
  }

  /** The answer of every call, the calls that are refused among them. */
  ghost predicate Repond(s: Noyau, a: Appel, i: Issue)
    requires s.elu in s.procs
  {
    match a
    case SysStart(prio, alloue) =>
      if StartValide(s, prio, alloue) then i.Rend? && i.code == s.libres[0] && i.code !in s.procs && 0 < i.code < MAX_PROCESS
      else i == Rend(s, -1, 0)
    case SysChprio(pid, newPrio, _) =>
      if ChprioValide(s, pid, newPrio) then i.Rend? && i.code == s.procs[pid].prio && i.code > 0 else i == Rend(s, -1, 0)
    case SysExit(_) => i.Suspend?
    case SysKill(pid) =>
      if !KillValide(s, pid) then i == Rend(s, -1, 0)
      else if pid == s.elu then i.Suspend? else i.Rend? && i.code == 0 && i.s.elu == s.elu
    case SysWaitpid(pid) =>
      if if pid >= 0 then pid in Elu(s).fils else Elu(s).fils != [] then RepondFils(s, pid, i) else i == Rend(s, -1, 0)
    case SysWaitClock(_) => i.Suspend?
    case SysConsRead(pret) => if pret then i.Rend? && i.code == 0 else i.Suspend?
    case SysPcreate(maxMsg) =>
      if PcreateValide(s, maxMsg) then i.Rend? && 0 <= i.code < NBQUEUE && i.code !in s.files else i == Rend(s, -1, 0)
    case SysPdelete(fid) => if fid in s.files then i.Rend? && i.code == 0 else i == Rend(s, -1, 0)
    case SysPreset(fid) => if fid in s.files then i.Rend? && i.code == 0 else i == Rend(s, -1, 0)
    case SysPcount(fid, nonNul) => i.Rend? && i.s == s && i.code == if fid in s.files && nonNul then 0 else -1
    case SysPsend(fid, _) =>
      if fid !in s.files then i == Rend(s, -1, 0)
      else if Recepteurs(s, fid) == {} && |s.files[fid].queueMsg| == s.files[fid].maxMsg then i.Suspend?
      else i.Rend? && i.code == 0
    case SysPreceive(fid) =>
      if fid !in s.files then i == Rend(s, -1, 0)
      else if s.files[fid].queueMsg == [] then i.Suspend?
      else i.Rend? && i.code == 0 && i.valeur == s.files[fid].queueMsg[0]
    case SysScreate(count) =>
      if ScreateValide(s, count) then i.Rend? && 0 <= i.code < NBSEM && i.code !in s.sems else i == Rend(s, -1, 0)
    case SysSdelete(sid) => if sid in s.sems then i.Rend? && i.code == 0 else i == Rend(s, -1, 0)
    case SysSreset(sid, count) => if sid in s.sems && count >= 0 then i.Rend? && i.code == 0 else i == Rend(s, -1, 0)
    case SysScount(sid) => i == Rend(s, if sid in s.sems then s.sems[sid] else -1, 0)
    case SysSignal(sid) =>
      if sid !in s.sems then i == Rend(s, -1, 0) else if s.sems[sid] == SHORTINT_MAX then i == Rend(s, -2, 0)
      else i.Rend? && i.code == 0
    case SysSignaln(sid, n) =>
      if sid !in s.sems then i == Rend(s, -1, 0) else if s.sems[sid] + n > SHORTINT_MAX then i == Rend(s, -2, 0)
      else i.Rend? && i.code == 0
    case SysTryWait(sid) =>
      if sid !in s.sems then i == Rend(s, -1, 0) else if s.sems[sid] > 0 then i.Rend? && i.code == 0
      else i == Rend(s, if s.sems[sid] == SHORTINT_MIN then -2 else -3, 0)
    case SysWait(sid) =>
      if sid !in s.sems then i == Rend(s, -1, 0) else if s.sems[sid] == SHORTINT_MIN then i == Rend(s, -2, 0)
      else if s.sems[sid] > 0 then i.Rend? && i.code == 0 else i.Suspend?
    case Reprise(pret) => (
      match Elu(s).suite
      case DansPsend => i.Rend? && i.code == if Elu(s).operationStatus == 0 then -1 else 0
      case DansPreceive => i.Rend? && i.code == (if Elu(s).operationStatus == 0 then -1 else 0) && i.valeur == Elu(s).fileValue
      case DansWait => i.Rend? && i.code == if Elu(s).operationStatus < 0 then Elu(s).operationStatus else 0
      case DansWaitpid(cible) => RepondFils(s, cible, i)
      case DansConsRead => if pret then i.Rend? && i.code == 0 else i.Suspend?
      case Utilisateur => true)
    case _ => i.Rend?
  }

  lemma BoucleRepond(s: Noyau, pid: int)
    requires Inv(s) && s.elu != IDLE && (pid >= 0 ==> pid in Elu(s).fils)
    ensures s.elu in s.procs && RepondFils(s, pid, BoucleWaitpid(s, pid))
  {
    hide BoucleWaitpid, Inv;
    SansAttente(s);
    PereConnu(s);
    BoucleWaitpidInv(s, pid);
    var i := BoucleWaitpid(s, pid);
    if i.Rend? {
      assert Recueillable(s, pid, i.code);
      BoucleCode(s, pid);
      if pid < 0 { PremierZombieMort(s, Elu(s).fils); }
    }
  }

  lemma BoucleCode(s: Noyau, pid: int)
    requires s.elu in s.procs && BoucleWaitpid(s, pid).Rend?
    ensures BoucleWaitpid(s, pid).code in s.procs && (pid < 0 ==> BoucleWaitpid(s, pid).code == PremierZombie(s, Elu(s).fils))
  {
    hide Recueilli, FreeMourantQueue, Ordonnanceur, Detacher, PremierZombie;
  }

  lemma {:induction false} PremierZombieMort(s: Noyau, fils: seq<int>)
    requires PremierZombie(s, fils) in s.procs && NULL !in s.procs
    ensures PremierMort(s, fils, PremierZombie(s, fils))
    decreases |fils|
  {
    var c := PremierZombie(s, fils);
    if fils[0] in s.procs && s.procs[fils[0]].etat == ZOMBIE {
      assert fils[0] == c;
    } else {
      PremierZombieMort(s, fils[1..]);
      var k :| 0 <= k < |fils[1..]| && fils[1..][k] == c && c in s.procs && s.procs[c].etat == ZOMBIE
        && forall j :: 0 <= j < k ==> !(fils[1..][j] in s.procs && s.procs[fils[1..][j]].etat == ZOMBIE);
      assert fils[k+1] == c;
      forall j | 0 <= j < k + 1 ensures !(fils[j] in s.procs && s.procs[fils[j]].etat == ZOMBIE) {
        if j > 0 { assert fils[1..][j-1] == fils[j]; }
      }
    }
  }

  lemma IdentifiantsLibres(s: Noyau)
    requires Inv(s)
    ensures s.fidsLibres == [] <==> forall f :: 0 <= f < NBQUEUE ==> f in s.files
    ensures s.fidsLibres != [] ==> 0 <= s.fidsLibres[0] < NBQUEUE && s.fidsLibres[0] !in s.files
    ensures s.sidsLibres == [] <==> forall k :: 0 <= k < NBSEM ==> k in s.sems
    ensures s.sidsLibres != [] ==> 0 <= s.sidsLibres[0] < NBSEM && s.sidsLibres[0] !in s.sems
    ensures s.libres != [] ==> s.libres[0] !in s.procs && 0 < s.libres[0] < MAX_PROCESS
  {
    hide Tri, Chainages, Famille, Etats;
    PremierLibre(s.fidsLibres, 0, NBQUEUE, s.files.Keys);
    PremierLibre(s.sidsLibres, 0, NBSEM, s.sems.Keys);
    PremierLibre(s.libres, 1, MAX_PROCESS, s.procs.Keys);
  }

  lemma PremierLibre(libres: seq<int>, bas: int, haut: int, pris: set<int>)
    requires forall x :: x in libres <==> bas <= x < haut && x !in pris
    ensures libres == [] <==> forall x :: bas <= x < haut ==> x in pris
    ensures libres != [] ==> bas <= libres[0] < haut && libres[0] !in pris
  {
    if libres != [] {
      var x := libres[0];
      assert x in libres;
    } else {
      forall x | bas <= x < haut ensures x in pris { assert x !in libres; }
    }
  }

  lemma FilesRepond(s: Noyau, a: Appel)
    requires Inv(s) && Legal(s, a) && (a.SysPsend? || a.SysPreceive? || a.SysPdelete? || a.SysPreset?)
    ensures Repond(s, a, Faire(s, a))
  {
    hide Psend, Preceive, Pdelete, Preset, Inv, Recepteurs;
    var fid := a.fid;
    if fid !in s.files {
      FileAbsente(s, fid, if a.SysPsend? then a.message else 0);
    } else {
      match a {
        case SysPsend(_, m) => PsendFiles(s, fid, m); PsendForme(s, fid, m); Receveurs(s, fid);
        case SysPreceive(_) => PreceiveFiles(s, fid);
        case _ => VidageEcrits(s, fid); VidageCode(s, fid);
      }
    }
  }

  lemma VidageCode(s: Noyau, fid: int)
    requires s.elu in s.procs && fid in s.files
    ensures Preset(s, fid).Rend? && Preset(s, fid).code == 0 && Pdelete(s, fid).Rend? && Pdelete(s, fid).code == 0
  {
    hide ReveillerListe, Finir;
  }

  lemma PsendForme(s: Noyau, fid: int, m: int)
    requires Inv(s) && fid in s.files
    ensures var f, q := s.files[fid], Chaine(s, AttenteFile(fid));
      Psend(s, fid, m).Suspend? <==> !(f.queueMsg == [] && q != []) && |f.queueMsg| == f.maxMsg
  {
    hide Remise, Finir, Ordonnanceur, Attente;
    if Chaine(s, AttenteFile(fid)) != [] { TeteEnAttente(s, fid); }
  }

  /** Somebody waits on an empty queue exactly when somebody waits for a message. */
  lemma Receveurs(s: Noyau, fid: int)
    requires Inv(s) && fid in s.files
    ensures Recepteurs(s, fid) == {} <==> !(s.files[fid].queueMsg == [] && Chaine(s, AttenteFile(fid)) != [])
  {
    AttenteEnsembles(s, fid);
    var q := Chaine(s, AttenteFile(fid));
    if s.files[fid].queueMsg == [] {
      if q != [] { assert q[0] in q; assert q[0] in Recepteurs(s, fid); }
      else { assert forall p :: p !in Recepteurs(s, fid); }
    }
  }

  lemma ProcessusRepond(s: Noyau, a: Appel)
    requires Inv(s) && Legal(s, a) && !Faire(s, a).Panique?
    requires a.SysStart? || a.SysChprio? || a.SysExit? || a.SysKill? || a.SysWaitpid? || a.Reprise?
    ensures Repond(s, a, Faire(s, a))
  {
    hide Finir, FreeMourantQueue, Ordonnanceur, BoucleWaitpid, Inv, QueueAdd, Inscrit, Deplacer, Detacher, ReveilPere, RepondFils;
    hide Kill, Waitpid;
    Sujet(s, s.elu);
    Refus(s, a);
    match a {
      case SysStart(_, _) => IdentifiantsLibres(s);
      case SysChprio(pid, newPrio, mot) => if ChprioValide(s, pid, newPrio) { PrioPositive(s, pid); }
      case SysKill(pid) => KillRepond(s, pid);
      case SysWaitpid(pid) =>
        WaitpidInv(s, pid);
        if if pid >= 0 then pid in Elu(s).fils else Elu(s).fils != [] { BoucleRepond(s, pid); }
      case Reprise(_) => if Elu(s).suite.DansWaitpid? { CibleDuFils(s); BoucleRepond(s, Elu(s).suite.cible); }
      case _ =>
    }
  }

  lemma KillRepond(s: Noyau, pid: int)
    requires Inv(s) && s.elu != IDLE && s.elu in s.procs && !Kill(s, pid).Panique?
    ensures Repond(s, SysKill(pid), Kill(s, pid))
  {
    hide Frappe, FreeMourantQueue, Inv, Ordonnanceur;
    Refus(s, SysKill(pid));
    if KillValide(s, pid) && pid != s.elu { KillFrappe(s, pid); FrappeElu(s, pid); }
  }

  lemma PrioPositive(s: Noyau, pid: int)
    requires Inv(s) && pid in s.procs && pid > IDLE
    ensures 0 < s.procs[pid].prio <= PRIO_MAX
  {
  }

  lemma FrappeElu(s: Noyau, pid: int)
    requires Inv(s) && KillValide(s, pid) && pid != s.elu
    ensures FreeMourantQueue(Frappe(s, pid)).elu == s.elu
  {
    hide Frappe, FreeMourantQueue, Mort;
    FrappeEffet(s, pid);
    MoissonInv(Frappe(s, pid));
  }

  lemma SemRepond(s: Noyau, a: Appel)
    requires Inv(s) && Bornes(s) && Legal(s, a) && !Faire(s, a).Panique?
    requires a.SysSignal? || a.SysSignaln? || a.SysWait?
    ensures Repond(s, a, Faire(s, a))
  {
    hide Signal, Signaux, Wait, Inv, Bornes;
    var sid := a.sid;
    if sid in s.sems { SemBornee(s, sid); }
    match a {
      case SysSignal(_) => if sid in s.sems { SignalEffet(s, sid); } else { SignalAbsent(s, sid); }
      case SysSignaln(_, n) =>
        if sid in s.sems && n >= 0 { SignalnAtomique(s, sid, n); } else { SignauxVide(s, sid, if n < 0 then n else 0); }
      case SysWait(_) => if sid in s.sems { WaitEffet(s, sid); } else { WaitAbsent(s, sid); }
      case _ =>
    }
  }

  /** Every call answers what is listed in `Repond`. */
  lemma FaireRepond(s: Noyau, a: Appel)
    requires Inv(s) && Bornes(s) && Legal(s, a) && !Faire(s, a).Panique?
    ensures Repond(s, a, Faire(s, a))
  {
    hide Start, Chprio, Exit, Kill, Waitpid, Pdelete, Preset, Psend, Preceive, Signal, Signaln, Wait, Reprendre, ReveillerListe;
    hide VerifieReveille, Ordonnanceur, VerifieEs, Inv, Bornes, Repond;
    if a.SysPsend? || a.SysPreceive? || a.SysPdelete? || a.SysPreset? {
      FilesRepond(s, a);
    } else if a.SysSignal? || a.SysSignaln? || a.SysWait? {
      SemRepond(s, a);
    } else if a.SysStart? || a.SysChprio? || a.SysExit? || a.SysKill? || a.SysWaitpid? || a.Reprise? {
      ProcessusRepond(s, a);
    } else {
      ResteRepond(s, a);
    }
  }

  lemma ResteRepond(s: Noyau, a: Appel)
    requires Inv(s) && Legal(s, a)
    requires !(a.SysPsend? || a.SysPreceive? || a.SysPdelete? || a.SysPreset? || a.SysSignal? || a.SysSignaln? || a.SysWait?)
    requires !(a.SysStart? || a.SysChprio? || a.SysExit? || a.SysKill? || a.SysWaitpid? || a.Reprise?)
    ensures Repond(s, a, Faire(s, a))
  {
    hide VerifieReveille, Ordonnanceur, VerifieEs, ReveillerListe, Inv;
    IdentifiantsLibres(s);
    if a.SysTryWait? && a.sid in s.sems { SemBornee(s, a.sid); }
  }

  // ----- The tables of queues and semaphores --------------------------------------------------------

  ghost function FilesApres(s: Noyau, a: Appel): map<int, File>
    requires s.elu in s.procs
  {
    match a
    case SysPcreate(maxMsg) =>
      if PcreateValide(s, maxMsg) && Faire(s, a).Rend? then s.files[Faire(s, a).code := File(maxMsg, [])] else s.files
    case SysPdelete(fid) => s.files - {fid}
    case SysPreset(fid) => if fid in s.files then s.files[fid := s.files[fid].(queueMsg := [])] else s.files
    case SysPsend(fid, m) =>
      if fid in s.files && Recepteurs(s, fid) == {} && |s.files[fid].queueMsg| < s.files[fid].maxMsg
      then s.files[fid := s.files[fid].(queueMsg := s.files[fid].queueMsg + [m])] else s.files
    case SysPreceive(fid) =>
      if fid in s.files && s.files[fid].queueMsg != []
      then s.files[fid := s.files[fid].(queueMsg := s.files[fid].queueMsg[1..] + Acceptes(s, a, fid))] else s.files
    case _ => s.files
  }

  ghost function SemsApres(s: Noyau, a: Appel): map<int, int>
    requires s.elu in s.procs
  {
    match a
    case SysScreate(count) => if ScreateValide(s, count) && Faire(s, a).Rend? then s.sems[Faire(s, a).code := count] else s.sems
    case SysSdelete(sid) => s.sems - {sid}
    case SysSreset(sid, count) => if sid in s.sems && count >= 0 then s.sems[sid := count] else s.sems
    case SysSignal(sid) => if sid in s.sems && s.sems[sid] < SHORTINT_MAX then s.sems[sid := s.sems[sid] + 1] else s.sems
    case SysSignaln(sid, n) =>
      if sid in s.sems && 0 <= n <= SHORTINT_MAX - s.sems[sid] then s.sems[sid := s.sems[sid] + n] else s.sems
    case SysTryWait(sid) => if sid in s.sems && s.sems[sid] > 0 then s.sems[sid := s.sems[sid] - 1] else s.sems
    case SysWait(sid) => if sid in s.sems && s.sems[sid] > SHORTINT_MIN then s.sems[sid := s.sems[sid] - 1] else s.sems
    case _ => s.sems
  }

  lemma FilesTables(s: Noyau, a: Appel)
    requires Inv(s) && Legal(s, a) && !Faire(s, a).Panique? && (a.SysPsend? || a.SysPreceive? || a.SysPreset? || a.SysPdelete? || a.SysPcreate?)
    ensures Faire(s, a).s.files == FilesApres(s, a)
  {
    hide Psend, Preceive, Pdelete, Preset, Inv, Recepteurs, Acceptes;
    if a.SysPcreate? {
      IdentifiantsLibres(s);
    } else if a.fid !in s.files {
      FileAbsente(s, a.fid, if a.SysPsend? then a.message else 0);
      assert s.files - {a.fid} == s.files;
    } else {
      var fid := a.fid;
      match a {
        case SysPsend(_, m) => PsendFiles(s, fid, m); PsendForme(s, fid, m); Receveurs(s, fid); Places(s, fid);
        case SysPreceive(_) => PreceiveFiles(s, fid);
        case _ => VidageFiles(s, fid);
      }
    }
  }

  lemma Places(s: Noyau, fid: int)
    requires Inv(s) && fid in s.files
    ensures |s.files[fid].queueMsg| <= s.files[fid].maxMsg && 1 <= s.files[fid].maxMsg <= MAXMSG
  {
  }

  lemma SemsTables(s: Noyau, a: Appel)
    requires Inv(s) && Bornes(s) && Legal(s, a) && !Faire(s, a).Panique? && DeSemaphore(a)
    ensures Faire(s, a).s.sems == SemsApres(s, a)
  {
    hide Faire, SemsApres, Inv, Bornes;
    if a.SysSignal? || a.SysSignaln? || a.SysWait? || a.SysTryWait? {
      ComptesTables(s, a);
    } else {
      ExistencesTables(s, a);
    }
  }

  lemma ComptesTables(s: Noyau, a: Appel)
    requires Inv(s) && Bornes(s) && Legal(s, a) && !Faire(s, a).Panique?
    requires a.SysSignal? || a.SysSignaln? || a.SysWait? || a.SysTryWait?
    ensures Faire(s, a).s.sems == SemsApres(s, a)
  {
    hide Signal, Signaln, Wait, TryWait, Inv, Bornes;
    match a {
      case SysSignal(sid) => SignalTables(s, sid);
      case SysSignaln(sid, n) => SignalnTables(s, sid, n);
      case SysWait(sid) => WaitTables(s, sid);
      case SysTryWait(sid) => TryWaitTables(s, sid);
      case _ =>
    }
  }

  lemma ExistencesTables(s: Noyau, a: Appel)
    requires Inv(s) && Legal(s, a) && (a.SysScreate? || a.SysSdelete? || a.SysSreset? || a.SysScount?)
    ensures !Faire(s, a).Panique? && Faire(s, a).s.sems == SemsApres(s, a)
  {
    hide Screate, Sdelete, Sreset, ScreateValide, Inv;
    match a {
      case SysScreate(count) => ScreateTables(s, count);
      case SysSdelete(sid) => VidageTables(s, sid, 0);
      case SysSreset(sid, count) => VidageTables(s, sid, count);
      case _ =>
    }
  }

  lemma ScreateTables(s: Noyau, count: int)
    requires Inv(s)
    ensures Screate(s, count).Rend? && Screate(s, count).s.elu == s.elu
    ensures Screate(s, count).s.sems == if ScreateValide(s, count) then s.sems[Screate(s, count).code := count] else s.sems
  {
    hide Inv;
    IdentifiantsLibres(s);
  }

  lemma TryWaitTables(s: Noyau, sid: int)
    requires Inv(s)
    ensures TryWait(s, sid).Rend? && TryWait(s, sid).s.elu == s.elu
    ensures TryWait(s, sid).s.sems == if sid in s.sems && s.sems[sid] > 0 then s.sems[sid := s.sems[sid] - 1] else s.sems
  {
  }

  lemma VidageTables(s: Noyau, sid: int, count: int)
    requires Inv(s)
    ensures Sdelete(s, sid).Rend? && Sdelete(s, sid).s.sems == s.sems - {sid} && Sdelete(s, sid).s.elu == s.elu
    ensures Sreset(s, sid, count).Rend? && Sreset(s, sid, count).s.elu == s.elu
    ensures Sreset(s, sid, count).s.sems == if sid in s.sems && count >= 0 then s.sems[sid := count] else s.sems
  {
    hide ReveillerListe, Inv;
    if sid in s.sems {
      ResteApres(s, sid, -3);
      ResteApres(s, sid, -4);
    } else {
      assert s.sems - {sid} == s.sems;
    }
  }

  lemma ResteApres(s: Noyau, sid: int, status: int)
    requires Inv(s)
    ensures var s1 := ReveillerListe(s, Chaine(s, AttenteSem(sid)), status); s1.sems == s.sems && s1.elu == s.elu
  {
    hide ReveillerListe, Inv, Coherent;
    ViderReste(s, AttenteSem(sid), status);
  }

  lemma WaitTables(s: Noyau, sid: int)
    requires Inv(s) && s.elu != IDLE && s.elu in s.procs
    ensures !Wait(s, sid).Panique?
    ensures Wait(s, sid).s.sems == if sid in s.sems && s.sems[sid] > SHORTINT_MIN then s.sems[sid := s.sems[sid] - 1] else s.sems
  {
    hide Wait, Inv;
    if sid in s.sems { SemBornee(s, sid); WaitEffet(s, sid); } else { WaitAbsent(s, sid); }
  }

  lemma SignalTables(s: Noyau, sid: int)
    requires Inv(s) && Bornes(s) && !Signal(s, sid).Panique?
    ensures Signal(s, sid).Rend? && Signal(s, sid).s.elu == s.elu
    ensures Signal(s, sid).s.sems == if sid in s.sems && s.sems[sid] < SHORTINT_MAX then s.sems[sid := s.sems[sid] + 1] else s.sems
  {
    hide Signal, Inv, Bornes, Libere1;
    if sid in s.sems { SemBornee(s, sid); SignalEffet(s, sid); } else { SignalAbsent(s, sid); }
  }

  lemma SignalnTables(s: Noyau, sid: int, n: int)
    requires Inv(s) && Bornes(s) && !Signaln(s, sid, n).Panique?
    ensures Signaln(s, sid, n).Rend? && Signaln(s, sid, n).s.elu == s.elu
    ensures Signaln(s, sid, n).s.sems ==
      if sid in s.sems && 0 <= n <= SHORTINT_MAX - s.sems[sid] then s.sems[sid := s.sems[sid] + n] else s.sems
  {
    hide Signaux, Inv, Bornes, Liberes;
    if sid in s.sems && n >= 0 { SignalnAtomique(s, sid, n); } else { SignauxVide(s, sid, if n < 0 then n else 0); }
  }

  /** The message queues and the semaphores after a step: which there are, their capacities, their
      messages, their counts. */
  lemma FaireTables(s: Noyau, a: Appel)
    requires Inv(s) && Bornes(s) && Legal(s, a) && !Faire(s, a).Panique?
    ensures Faire(s, a).s.files == FilesApres(s, a) && Faire(s, a).s.sems == SemsApres(s, a)
  {
    hide Faire, Inv, Bornes, SemsIntacts;
    if a.SysPsend? || a.SysPreceive? || a.SysPreset? || a.SysPdelete? || a.SysPcreate? {
      FilesTables(s, a);
    } else {
      AutresFiles(s, a);
    }
    if DeSemaphore(a) {
      SemsTables(s, a);
    } else {
      AutresSems(s, a);
    }
  }

  lemma AutresSems(s: Noyau, a: Appel)
    requires Inv(s) && Legal(s, a) && !Faire(s, a).Panique? && !DeSemaphore(a)
    ensures Faire(s, a).s.sems == s.sems
  {
    hide Faire, Inv, Kill;
    if a.SysKill? {
      FaireKill(s, a);
      KillIntact(s, a.pid);
    } else {
      SemsLaisses(s, a);
    }
  }

  // ----- When the processor changes hands -------------------------------------------------------------

  /** The caller goes on, or it has been outranked. */
  ghost predicate Cede(s: Noyau, s': Noyau) {
    s.elu in s'.procs && s'.elu in s'.procs && (s'.elu == s.elu || s'.procs[s'.elu].prio > s'.procs[s.elu].prio)
  }

  lemma FinirCede(s1: Noyau, q: seq<int>, s: Noyau)
    requires Coherent(s1) && DefuntsSansPere(s1) && s1.procs[s1.elu].etat == ELU
    requires s1.elu == s.elu && s.elu in s.procs && s1.procs[s.elu].prio == s.procs[s.elu].prio
    requires forall x :: x in q && x in s.procs ==> x in Chaine(s1, ProcActivables) && x in s1.procs && s1.procs[x].prio == s.procs[x].prio
    ensures Cede(s, Finir(s1, Depasse(s, q, s.procs[s.elu].prio)))
  {
    hide Ordonnanceur, Tri, Files, Sems, Famille;
    if Depasse(s, q, s.procs[s.elu].prio) {
      var i :| 0 <= i < |q| && q[i] in s.procs && s.procs[q[i]].prio > s.procs[s.elu].prio;
      var x := q[i];
      assert x in q;
      EluSauf(s1);
      OrdonnanceurInv(s1);
      SuiviOrdonnanceur(s1);
      Depossede(s1, Ordonnanceur(s1), x);
    }
  }

  lemma Depossede(s1: Noyau, s': Noyau, x: int)
    requires Coherent(s1) && s1.procs[s1.elu].etat == ELU && x in Chaine(s1, ProcActivables) && x in s1.procs
    requires s1.procs[x].prio > s1.procs[s1.elu].prio && Suivi(s1, s', {}) && Inv(s') && Preeminent(s')
    ensures Cede(s1, s')
  {
    hide Tri, Files, Sems, Famille;
    assert s1.procs[x].etat == ACTIVABLE;
    assert x in s'.procs && Inchange(s1.procs[x], s'.procs[x]);
    assert s1.elu in s'.procs && Inchange(s1.procs[s1.elu], s'.procs[s1.elu]);
    if x != s'.elu { assert x in Chaine(s', ProcActivables); }
  }

  lemma CedeRien(s: Noyau, s': Noyau)
    requires s'.elu == s.elu && s.elu in s'.procs
    ensures Cede(s, s')
  {
  }

  lemma StartCede(s: Noyau, prio: int, alloue: bool)
    requires Inv(s)
    ensures Cede(s, Start(s, prio, alloue).s)
  {
    hide Finir, Inscrit, QueueAdd, Coherent;
    Sujet(s, s.elu);
    if StartValide(s, prio, alloue) {
      var s2 := NouveauPret(s, prio);
      var t := s.(procs := s2.procs);
      assert [s.libres[0]][0] == s.libres[0];
      assert Depasse(t, [s.libres[0]], Elu(s).prio) <==> prio > Elu(s).prio;
      assert Finir(s2, prio > Elu(s).prio) == Finir(s2, Depasse(t, [s.libres[0]], t.procs[t.elu].prio));
      FinirCede(s2, [s.libres[0]], t);
    }
  }

  lemma ChprioCede(s: Noyau, pid: int, newPrio: int, mot: int)
    requires Inv(s) && pid != s.elu
    ensures Cede(s, Chprio(s, pid, newPrio, mot).s)
  {
    hide Finir, Deplacer, Coherent;
    Sujet(s, pid);
    if ChprioValide(s, pid, newPrio) {
      var p := s.procs[pid];
      var rec := p.(prio := newPrio);
      if p.etat == ACTIVABLE {
        ReplacerCoherent(s, pid, newPrio, ProcActivables);
        var s1 := Deplacer(s, pid, rec, ProcActivables);
        assert [pid][0] == pid;
        Rangee(s, pid);
        assert Depasse(s1, [pid], Elu(s).prio) <==> newPrio > Elu(s).prio;
        FinirCede(s1, [pid], s1);
      } else if p.etat == ATTEND_FILE {
        ReplacerCoherent(s, pid, newPrio, AttenteFile(p.fid));
      }
    }
  }

  lemma Rangee(s: Noyau, pid: int)
    requires Inv(s) && pid in s.procs && s.procs[pid].etat == ACTIVABLE
    ensures pid in Chaine(s, ProcActivables)
  {
  }

  lemma ReveilCede(s: Noyau, s0: Noyau, p: int, rec: Processus)
    requires Coherent(s0) && DefuntsSansPere(s0) && s0.procs[s0.elu].etat == ELU
    requires s0.elu == s.elu && s.elu in s.procs && s0.procs[s.elu].prio == s.procs[s.elu].prio
    requires p in s0.procs && p != s0.elu && EnAttente(s0.procs[p].etat)
    requires rec.prio == s0.procs[p].prio && rec.pere == s0.procs[p].pere && rec.fils == s0.procs[p].fils && AttenteFondee(rec)
    ensures Cede(s, Finir(Reveil(s0, p, rec), rec.prio > s.procs[s.elu].prio))
  {
    hide Finir, Reveil, Tri, Files, Sems, Famille, Chainages;
    ReveilCoherent(s0, p, rec);
    var s1 := Reveil(s0, p, rec);
    assert [p][0] == p;
    assert Depasse(s1, [p], s1.procs[s1.elu].prio) <==> rec.prio > s.procs[s.elu].prio;
    FinirCede(s1, [p], s1);
  }

  lemma VidageCede(s: Noyau, fid: int)
    requires Inv(s) && fid in s.files
    ensures Cede(s, Preset(s, fid).s) && Cede(s, Pdelete(s, fid).s)
  {
    hide ReveillerListe, Finir, Tri, Table, Famille, Sems, Etats, Depasse, Cede;
    var r := AttenteFile(fid);
    SansAttente(s);
    var q := Chaine(s, r);
    var s1 := ReveillerListe(s, q, 0);
    VideeElu(s, r, 0);
    MajFileInv(s1, fid, []);
    FinirCede(MajFile(s1, fid, []), q, s);
    RetireeCoherent(s1, fid);
    FinirCede(Retiree(s1, fid), q, s);
  }

  lemma EnvoyeCede(s: Noyau, fid: int, m: int)
    requires Inv(s) && s.elu != IDLE && fid in s.files && Psend(s, fid, m).Rend?
    ensures Cede(s, Psend(s, fid, m).s)
  {
    hide Reveil, Finir, Ordonnanceur, Deplacer, Tri, Trie, Sems, Cede;
    var f, q := s.files[fid], Chaine(s, AttenteFile(fid));
    if q != [] { TeteEnAttente(s, fid); }
    var e := Elu(s).(fileValue := m, operationStatus := 1);
    var s0 := Maj(s, s.elu, e);
    MajEluInv(s, e);
    if f.queueMsg == [] && q != [] {
      ReveilCede(s, s0, q[0], s.procs[q[0]].(fid := -1, fileValue := m, operationStatus := 1));
    } else {
      CedeRien(s, Psend(s, fid, m).s);
    }
  }

  lemma RecuCede(s: Noyau, fid: int)
    requires Inv(s) && s.elu != IDLE && fid in s.files && Preceive(s, fid).Rend?
    ensures Cede(s, Preceive(s, fid).s)
  {
    hide Reveil, Finir, Ordonnanceur, Deplacer, Tri, Trie, Sems, Cede;
    var f, q := s.files[fid], Chaine(s, AttenteFile(fid));
    var e := Elu(s).(fileValue := -1, operationStatus := 1);
    var s0 := Maj(s, s.elu, e);
    MajEluInv(s, e);
    if q != [] {
      TeteEnAttente(s, fid);
      var p := s.procs[q[0]];
      var msgs := f.queueMsg[1..] + [p.fileValue];
      MajFileInv(s0, fid, msgs);
      ReveilCede(s, MajFile(s0, fid, msgs), q[0], p.(fid := -1, operationStatus := 1));
    } else {
      CedeRien(s, Preceive(s, fid).s);
    }
  }

  lemma ReveilsCede(s: Noyau, ticks: int)
    requires Inv(s)
    ensures Cede(s, VerifieReveille(s, ticks))
  {
    hide Finir, Eveiller, Restants, Coherent, Depasse, Cede;
    Sujet(s, s.elu);
    var q := Chaine(s, ProcEndormis);
    var m := Restants(s.procs, q, ticks);
    EveillerEffet(s, m);
    Endormis(s, ticks);
    Sommeils(s, m);
    FinirCede(Eveiller(s, q, m), q[m..], s);
  }

  lemma Sommeils(s: Noyau, m: nat)
    requires Inv(s) && m <= |Chaine(s, ProcEndormis)|
    ensures var q := Chaine(s, ProcEndormis); forall x :: x in q[m..] ==> x in q && x !in q[..m]
  {
    var q := Chaine(s, ProcEndormis);
    forall i, j | 0 <= i < m && m <= j < |q| ensures q[i] != q[j] { assert Lt(i, j); }
  }

  /** A call that returns gives the processor up only to a process that outranks the caller.  (The
      end of a time slice, the keyboard interrupt and a process that sets its own priority may
      give it up to an equal.) */
  lemma FaireCede(s: Noyau, a: Appel)
    requires Inv(s) && Bornes(s) && Legal(s, a) && Faire(s, a).Rend?
    requires !a.Tranche? && !a.Clavier? && !(a.SysChprio? && a.pid == s.elu)
    ensures Cede(s, Faire(s, a).s)
  {
    hide Start, Chprio, Exit, Kill, Waitpid, WaitClock, ConsReadBloque, ConsReadLu, Pcreate, Pdelete, Preset, Psend, Preceive;
    hide Screate, Sdelete, Sreset, Signal, Signaln, TryWait, Wait, Reprendre, VerifieReveille, Ordonnanceur, VerifieEs;
    hide Inv, Bornes, Cede;
    CedeRien(s, s);
    match a {
      case SysStart(prio, alloue) => StartCede(s, prio, alloue);
      case SysChprio(pid, newPrio, mot) => ChprioCede(s, pid, newPrio, mot);
      case SysPdelete(fid) => if fid in s.files { VidageCede(s, fid); } else { FileAbsente(s, fid, 0); }
      case SysPreset(fid) => if fid in s.files { VidageCede(s, fid); } else { FileAbsente(s, fid, 0); }
      case SysPsend(fid, m) => if fid in s.files { EnvoyeCede(s, fid, m); } else { FileAbsente(s, fid, m); }
      case SysPreceive(fid) => if fid in s.files { RecuCede(s, fid); } else { FileAbsente(s, fid, 0); }
      case Reveils(ticks) => ReveilsCede(s, ticks);
      case _ => ResteElu(s, a);
    }
  }

  lemma ResteElu(s: Noyau, a: Appel)
    requires Inv(s) && Bornes(s) && Legal(s, a) && Faire(s, a).Rend?
    requires !(a.SysStart? || a.SysChprio? || a.SysPdelete? || a.SysPreset? || a.SysPsend? || a.SysPreceive? || a.Reveils?)
    requires !a.Tranche? && !a.Clavier?
    ensures Cede(s, Faire(s, a).s)
  {
    hide Faire, Inv, Bornes, Cede;
    FaireInv(s, a);
    MemeElu(s, a);
    InvElu(Faire(s, a).s);
    CedeRien(s, Faire(s, a).s);
  }

  lemma MemeElu(s: Noyau, a: Appel)
    requires Inv(s) && Bornes(s) && Legal(s, a) && Faire(s, a).Rend?
    requires !(a.SysStart? || a.SysChprio? || a.SysPdelete? || a.SysPreset? || a.SysPsend? || a.SysPreceive? || a.Reveils?)
    requires !a.Tranche? && !a.Clavier?
    ensures Faire(s, a).s.elu == s.elu
  {
    hide Exit, Kill, Waitpid, Signal, Signaln, Wait, BoucleWaitpid, Ordonnanceur, ReveillerListe, Inv, Bornes;
    if DeSemaphore(a) {
      SemElu(s, a);
    } else if a.SysKill? || a.SysWaitpid? || a.SysExit? || a.Reprise? {
      ProcessusRepond(s, a);
    }
  }

  lemma SemElu(s: Noyau, a: Appel)
    requires Inv(s) && Bornes(s) && Legal(s, a) && Faire(s, a).Rend? && DeSemaphore(a)
    ensures Faire(s, a).s.elu == s.elu
  {
    hide Start, Chprio, Exit, Kill, Waitpid, Pdelete, Preset, Psend, Preceive, Reprendre, VerifieReveille, VerifieEs;
    hide Signal, Signaln, Sdelete, Sreset, Ordonnanceur, Inv, Bornes;
    match a {
      case SysSdelete(sid) => VidageTables(s, sid, 0);
      case SysSreset(sid, count) => VidageTables(s, sid, count);
      case SysSignal(sid) => SignalTables(s, sid);
      case SysSignaln(sid, n) => SignalnTables(s, sid, n);
      case _ =>
    }
  }
}
