/** The state shared by kernel/processus.c, kernel/files.c and kernel/semaphore.c, the three
    queue operations on it, and the global invariant every system call keeps.

    Pointers to processes are modelled by pids (NULL by -1).  The one `chainage` link of a
    process is modelled by the queue it is linked in, `Libre` standing for null links; the
    queues themselves are listed in the order of queue_out (see PriorityQueue and Ring). */
module KernelState {
  import opened PriorityQueue

  const NULL := -1
  const IDLE := 0
  const MAX_PROCESS := 50
  const PRIO_MAX := 255
  const NBQUEUE := 10
  const MAXMSG := 10000
  const NBSEM := 10
  const SHORTINT_MAX := 32767
  const SHORTINT_MIN := -32768

  datatype Etat =
    ELU | ACTIVABLE | ENDORMI | MOURANT | ZOMBIE | ATTEND_FILS | ATTEND_FILE | ATTEND_SEMAPHORE | ATTEND_ES

  /** Every list head a process can be linked under. */
  datatype Anneau =
    ProcActivables | ProcEndormis | ProcMourants | ProcBloqueEs | AttenteFile(fid: int) | AttenteSem(sid: int)

  datatype Chainage = Libre | Dans(anneau: Anneau)

  /** The priority field a queue is ordered by; `place` is always 0. */
  datatype Champ = Prio | SecReveille | Place

  function ChampDe(r: Anneau): Champ {
    match r
    case ProcEndormis => SecReveille
    case AttenteSem(_) => Place
    case _ => Prio
  }

  /** Where the kernel stack of a suspended process resumes. */
  datatype Suite = Utilisateur | DansPsend | DansPreceive | DansWait | DansWaitpid(cible: int) | DansConsRead

  datatype Processus = Processus(
    etat: Etat, prio: int, secReveille: int, chainage: Chainage,
    pere: int, fils: seq<int>, retval: int,
    fid: int, fileValue: int, operationStatus: int, suite: Suite)

  datatype File = File(maxMsg: int, queueMsg: seq<int>)

  datatype Noyau = Noyau(
    procs: map<int, Processus>,      // tableDesProcs
    libres: seq<int>,                // the list under PidLibreTete
    elu: int,                        // ProcElu
    anneaux: map<Anneau, seq<int>>,  // every queue of processes
    files: map<int, File>,           // tableauFile
    fidsLibres: seq<int>,            // fid_liste
    sems: map<int, int>,             // tableauSem, each with its count
    sidsLibres: seq<int>)            // sid_liste

  // ----- queue_add, queue_del and queue_out on the kernel state -------------------------

  function Chaine(s: Noyau, r: Anneau): seq<int> {
    if r in s.anneaux then s.anneaux[r] else []
  }

  function Cle(p: Processus, c: Champ): int {
    match c
    case Prio => p.prio
    case SecReveille => p.secReveille
    case Place => 0
  }

  function CleDe(procs: map<int, Processus>, c: Champ, p: int): int {
    if p in procs then Cle(procs[p], c) else 0
  }

  function Cles(procs: map<int, Processus>, c: Champ, q: seq<int>): (r: seq<int>)
    ensures |r| == |q|
    ensures forall i :: 0 <= i < |q| ==> r[i] == CleDe(procs, c, q[i])
  {
    seq(|q|, i requires 0 <= i < |q| => CleDe(procs, c, q[i]))
  }

  /** Where queue_add puts process `p` in queue `r`. */
  function Rang(procs: map<int, Processus>, r: Anneau, q: seq<int>, p: Processus): (n: nat)
    ensures n <= |q|
  {
    Position(Cles(procs, ChampDe(r), q), Cle(p, ChampDe(r)))
  }

  /** Overwriting fields of one process. */
  function Maj(s: Noyau, p: int, rec: Processus): Noyau {
    s.(procs := s.procs[p := rec])
  }

  function QueueAdd(s: Noyau, r: Anneau, p: int): Noyau
    requires p in s.procs
  {
    var q := Chaine(s, r);
    s.(anneaux := s.anneaux[r := Insert(q, Rang(s.procs, r, q, s.procs[p]), p)],
       procs := s.procs[p := s.procs[p].(chainage := Dans(r))])
  }

  function QueueDel(s: Noyau, p: int): Noyau
    requires p in s.procs
  {
    if s.procs[p].chainage == Libre then s
    else
      var r := s.procs[p].chainage.anneau;
      s.(anneaux := s.anneaux[r := Without(Chaine(s, r), p)],
         procs := s.procs[p := s.procs[p].(chainage := Libre)])
  }

  /** A process changes queue, its fields becoming `rec`. */
  function Deplacer(s: Noyau, p: int, rec: Processus, r: Anneau): Noyau
    requires p in s.procs
  {
    QueueAdd(Maj(QueueDel(s, p), p, rec.(chainage := Libre)), r, p)
  }

  /** A process leaves its queue, its fields becoming `rec`. */
  function Detacher(s: Noyau, p: int, rec: Processus): Noyau
    requires p in s.procs
  {
    Maj(QueueDel(s, p), p, rec.(chainage := Libre))
  }

  // ----- The invariant ------------------------------------------------------------------

  /** Every pid 1..49 is either free or in the table, never both; only Idle has priority 0. */
  ghost predicate Table(s: Noyau) {
    && IDLE in s.procs && s.elu in s.procs
    && (forall p :: p in s.procs ==> 0 <= p < MAX_PROCESS)
    && (forall p :: p in s.procs ==> 0 <= s.procs[p].prio <= PRIO_MAX && (s.procs[p].prio == 0 <==> p == IDLE))
    && NoDup(s.libres)
    && (forall p :: p in s.libres <==> 1 <= p < MAX_PROCESS && p !in s.procs)
  }

  /** A process is linked in a queue iff its `chainage` says so, and at most once. */
  ghost predicate Chainages(s: Noyau) {
    && (forall r, p {:trigger p in Chaine(s, r)} :: p in Chaine(s, r) ==> p in s.procs && s.procs[p].chainage == Dans(r))
    && (forall p :: p in s.procs && s.procs[p].chainage.Dans? ==> p in Chaine(s, s.procs[p].chainage.anneau))
    && (forall r :: NoDup(Chaine(s, r)))
  }

  /** The queue a state calls for. */
  predicate Accord(p: Processus) {
    match p.etat
    case ELU => p.chainage == Libre
    case ACTIVABLE => p.chainage == Dans(ProcActivables)
    case ENDORMI => p.chainage == Dans(ProcEndormis) && p.suite == Utilisateur
    case MOURANT => p.chainage == Dans(ProcMourants)
    case ZOMBIE => p.chainage == Libre
    case ATTEND_FILS => p.chainage == Libre && p.suite.DansWaitpid?
    case ATTEND_FILE => p.chainage == Dans(AttenteFile(p.fid)) && (p.suite == DansPsend || p.suite == DansPreceive)
    case ATTEND_SEMAPHORE => p.chainage.Dans? && p.chainage.anneau.AttenteSem? && p.suite == DansWait
    case ATTEND_ES => p.chainage == Dans(ProcBloqueEs) && p.suite == DansConsRead
  }

  /** State and queue agree, for every process but possibly the running one: between the
      moment a call has changed its state and the switch made by ordonnanceur, a dying
      running process is not yet linked. */
  ghost predicate Etats(s: Noyau) {
    && (forall p :: p in s.procs && p != s.elu ==> Accord(s.procs[p]) && s.procs[p].etat != ELU)
    && s.elu in s.procs
    && s.procs[s.elu].etat != ACTIVABLE
    && (Accord(s.procs[s.elu]) || (s.procs[s.elu].etat == MOURANT && s.procs[s.elu].chainage == Libre))
    && (s.elu == IDLE ==> s.procs[IDLE].etat == ELU)
    && IDLE in s.procs && (s.procs[IDLE].etat == ELU || s.procs[IDLE].etat == ACTIVABLE)
  }

  /** Somebody waiting for one child waits for a child of its own. */
  predicate AttenteFondee(p: Processus) {
    p.suite.DansWaitpid? && p.suite.cible >= 0 ==> p.suite.cible in p.fils
  }

  /** A child is in its father's list iff its `pere` is that father. */
  ghost predicate Famille(s: Noyau) {
    && (forall q, c {:trigger c in s.procs[q].fils} :: q in s.procs && c in s.procs[q].fils ==>
          c in s.procs && s.procs[c].pere == q && s.procs[c].etat != MOURANT)
    && (forall c {:trigger s.procs[c].pere} :: c in s.procs && s.procs[c].etat != MOURANT && s.procs[c].pere != NULL ==>
          s.procs[c].pere in s.procs && c in s.procs[s.procs[c].pere].fils)
    && (forall q :: q in s.procs ==> NoDup(s.procs[q].fils))
    && (forall q :: q in s.procs ==> AttenteFondee(s.procs[q]))
    && (IDLE in s.procs ==> s.procs[IDLE].pere == NULL)
  }

  /** The waiting list of a message queue mixes senders and receivers, but never at once:
      waiting receivers mean an empty buffer, waiting senders a full one. */
  ghost predicate AttenteSaine(s: Noyau, fid: int) {
    forall p {:trigger p in Chaine(s, AttenteFile(fid))} :: p in Chaine(s, AttenteFile(fid)) && p in s.procs ==>
      && fid in s.files
      && (s.procs[p].suite == DansPreceive ==> s.files[fid].queueMsg == [])
      && (s.procs[p].suite == DansPsend ==> |s.files[fid].queueMsg| == s.files[fid].maxMsg)
  }

  ghost predicate Files(s: Noyau) {
    && (forall f :: f in s.files ==>
          0 <= f < NBQUEUE && 1 <= s.files[f].maxMsg <= MAXMSG && |s.files[f].queueMsg| <= s.files[f].maxMsg)
    && NoDup(s.fidsLibres)
    && (forall f :: f in s.fidsLibres <==> 0 <= f < NBQUEUE && f !in s.files)
    && (forall f :: AttenteSaine(s, f))
  }

  ghost predicate Sems(s: Noyau) {
    && (forall k :: k in s.sems ==> 0 <= k < NBSEM && SHORTINT_MIN <= s.sems[k] <= SHORTINT_MAX)
    && NoDup(s.sidsLibres)
    && (forall k :: k in s.sidsLibres <==> 0 <= k < NBSEM && k !in s.sems)
    && (forall k :: Chaine(s, AttenteSem(k)) != [] ==> k in s.sems)
  }

  ghost predicate Trie(s: Noyau, r: Anneau) {
    Sorted(Cles(s.procs, ChampDe(r), Chaine(s, r)))
  }

  /** The queues kept in order: ready by priority, sleepers by wake time, message waiters by
      priority.  (chprio does not move a process of proc_bloque_es or proc_mourants.) */
  ghost predicate Tri(s: Noyau) {
    Trie(s, ProcActivables) && Trie(s, ProcEndormis) && forall f :: Trie(s, AttenteFile(f))
  }

  /** What holds up to the next call of ordonnanceur. */
  ghost predicate Coherent(s: Noyau) {
    Table(s) && Chainages(s) && Etats(s) && Famille(s) && Files(s) && Sems(s) && Tri(s)
  }

  ghost predicate DefuntsSansPere(s: Noyau) {
    forall p {:trigger s.procs[p].pere} :: p in s.procs && s.procs[p].etat == MOURANT ==> s.procs[p].pere == NULL
  }

  /** What holds whenever a process, or the clock, enters the kernel. */
  ghost predicate Inv(s: Noyau) {
    Coherent(s) && s.procs[s.elu].etat == ELU && DefuntsSansPere(s)
  }
}
