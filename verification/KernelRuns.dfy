/** Safety over whole runs of the kernel. */
module KernelRuns {
  import opened PriorityQueue
  import opened KernelState
  import opened KernelMoves
  import opened KernelReap
  import opened KernelSched
  import opened KernelWake
  import opened KernelFiles
  import opened KernelSem
  import opened KernelDeath
  import opened KernelPatience
  import opened KernelFollow
  import opened KernelSteps
  import opened KernelTraffic
  import opened KernelAnswers

  // ----- Boot -------------------------------------------------------------------------------------

  const PREMIER := Processus(ELU, 0, 0, Libre, NULL, [], 0, 0, 0, 0, Utilisateur)

  /** init_ordonnanceur, before it starts the user program: Idle runs alone; the free pids are
      taken in increasing order, the free queue and semaphore numbers in decreasing order. */
  function Demarrage(): Noyau {
    Noyau(map[IDLE := PREMIER], seq(MAX_PROCESS - 1, i => i + 1), IDLE, map[],
          map[], seq(NBQUEUE, i => NBQUEUE - 1 - i), map[], seq(NBSEM, i => NBSEM - 1 - i))
  }

  lemma DemarrageListes()
    ensures NoDup(Demarrage().libres) && forall p :: p in Demarrage().libres <==> 1 <= p < MAX_PROCESS
    ensures NoDup(Demarrage().fidsLibres) && forall f :: f in Demarrage().fidsLibres <==> 0 <= f < NBQUEUE
    ensures NoDup(Demarrage().sidsLibres) && forall k :: k in Demarrage().sidsLibres <==> 0 <= k < NBSEM
  {
    var s := Demarrage();
    forall p | 1 <= p < MAX_PROCESS ensures p in s.libres { assert s.libres[p-1] == p; }
    forall f | 0 <= f < NBQUEUE ensures f in s.fidsLibres && f in s.sidsLibres {
      assert s.fidsLibres[NBQUEUE-1-f] == f && s.sidsLibres[NBSEM-1-f] == f;
    }
  }

  /** Everything the runs below start from. */
  lemma DemarrageInv()
    ensures Inv(Demarrage()) && Comptes(Demarrage()) && Bornes(Demarrage()) && SansReveilPerdu(Demarrage()) && Preeminent(Demarrage())
  {
    hide Inv;
    var s := Demarrage();
    DemarrageCoherent();
    assert forall r :: Chaine(s, r) == [];
    forall k ensures Compte(s, k) {}
    ComptesBornes(s);
  }

  lemma DemarrageCoherent()
    ensures Inv(Demarrage())
  {
    var s := Demarrage();
    DemarrageListes();
    assert forall r :: Chaine(s, r) == [];
    forall r ensures Trie(s, r) {}
  }

  // ----- Runs -------------------------------------------------------------------------------------

  /** A run: the state before each step, and the last one. */
  ghost predicate Course(ss: seq<Noyau>, actes: seq<Appel>) {
    |ss| == |actes| + 1 &&
    forall i {:trigger actes[i]} :: 0 <= i < |actes| ==> Legal(ss[i], actes[i]) && !Faire(ss[i], actes[i]).Panique? && Faire(ss[i], actes[i]).s == ss[i+1]
  }

  lemma Etape(ss: seq<Noyau>, actes: seq<Appel>, i: nat)
    requires Course(ss, actes) && i < |actes|
    ensures Legal(ss[i], actes[i]) && !Faire(ss[i], actes[i]).Panique? && Faire(ss[i], actes[i]).s == ss[i+1]
  {
    assert actes[i] == actes[i];
  }

  /** The invariant holds in every state of every run. */
  lemma {:induction false} CourseInv(ss: seq<Noyau>, actes: seq<Appel>, n: nat)
    requires Course(ss, actes) && n <= |actes| && Inv(ss[0])
    ensures Inv(ss[n])
    decreases n
  {
    hide Inv, Faire, Course;
    if n > 0 {
      CourseLongueur(ss, actes);
      CourseInv(ss, actes, n - 1);
      Etape(ss, actes, n - 1);
      FaireInv(ss[n-1], actes[n-1]);
    }
  }

  lemma CourseLongueur(ss: seq<Noyau>, actes: seq<Appel>)
    requires Course(ss, actes)
    ensures |ss| == |actes| + 1
  {
  }

  /** As long as no process is killed while it waits on a semaphore, a negative count is the
      number of waiters. */
  lemma {:induction false} CourseComptes(ss: seq<Noyau>, actes: seq<Appel>, n: nat)
    requires Course(ss, actes) && n <= |actes| && Inv(ss[0]) && Comptes(ss[0])
    requires forall i :: 0 <= i < n ==> !TueEnAttente(ss[i], actes[i])
    ensures Inv(ss[n]) && Comptes(ss[n])
    decreases n
  {
    hide Inv, Faire, Comptes;
    CourseInv(ss, actes, n);
    if n > 0 {
      CourseComptes(ss, actes, n - 1);
      Etape(ss, actes, n - 1);
      ComptesGardes(ss[n-1], actes[n-1]);
    }
  }

  /** In every run, whoever is killed, no semaphore has more waiters than its count says. */
  lemma {:induction false} CourseBornes(ss: seq<Noyau>, actes: seq<Appel>, n: nat)
    requires Course(ss, actes) && n <= |actes| && Inv(ss[0]) && Bornes(ss[0])
    ensures Inv(ss[n]) && Bornes(ss[n])
    decreases n
  {
    hide Inv, Faire, Bornes;
    CourseInv(ss, actes, n);
    if n > 0 {
      CourseBornes(ss, actes, n - 1);
      Etape(ss, actes, n - 1);
      BornesGardees(ss[n-1], actes[n-1]);
    }
  }

  /** A count that tells the truth keeps signal and signaln from going wrong. */
  lemma SansPanneSem(s: Noyau, sid: int, n: int)
    requires Inv(s) && Comptes(s)
    ensures !Fatal(s, SysSignal(sid)) && !Fatal(s, SysSignaln(sid, n))
  {
    assert Compte(s, sid);
  }

  /** As long as no process kills itself under a father that waits for it, no father sleeps in
      waitpid over a dead child it waits for. */
  lemma {:induction false} CourseReveils(ss: seq<Noyau>, actes: seq<Appel>, n: nat)
    requires Course(ss, actes) && n <= |actes| && Inv(ss[0]) && SansReveilPerdu(ss[0])
    requires forall i :: 0 <= i < n ==> !PartSansPrevenir(ss[i], actes[i])
    ensures SansReveilPerdu(ss[n])
    decreases n
  {
    hide Inv, Faire, SansReveilPerdu;
    if n > 0 {
      CourseReveils(ss, actes, n - 1);
      CourseInv(ss, actes, n - 1);
      Etape(ss, actes, n - 1);
      ReveilGarde(ss[n-1], actes[n-1]);
    }
  }

  /** As long as no step wakes somebody more important without switching, the running process is
      never outranked by a ready one. */
  lemma {:induction false} CoursePriorite(ss: seq<Noyau>, actes: seq<Appel>, n: nat)
    requires Course(ss, actes) && n <= |actes| && Inv(ss[0]) && Bornes(ss[0]) && Preeminent(ss[0])
    requires forall i :: 0 <= i < n ==> Legal(ss[i], actes[i]) && !Laisse(ss[i], actes[i])
    ensures Preeminent(ss[n])
    decreases n
  {
    hide Inv, Faire, Bornes, Preeminent, Laisse, Legal;
    if n > 0 {
      CoursePriorite(ss, actes, n - 1);
      CourseBornes(ss, actes, n - 1);
      Etape(ss, actes, n - 1);
      PrioriteGardee(ss[n-1], actes[n-1]);
    }
  }

  // ----- Message queues over a run -----------------------------------------------------------------

  /** Everything queue `fid` took charge of in the first `n` steps, in order. */
  function TousAcceptes(ss: seq<Noyau>, actes: seq<Appel>, fid: int, n: nat): seq<int>
    requires n <= |actes| <= |ss|
  {
    if n == 0 then [] else TousAcceptes(ss, actes, fid, n - 1) + Acceptes(ss[n-1], actes[n-1], fid)
  }

  function TousLivres(ss: seq<Noyau>, actes: seq<Appel>, fid: int, n: nat): seq<int>
    requires n <= |actes| <= |ss|
  {
    if n == 0 then [] else TousLivres(ss, actes, fid, n - 1) + Livres(ss[n-1], actes[n-1], fid)
  }

  lemma Recolle(t0: seq<int>, acc: seq<int>, a: seq<int>, liv: seq<int>, l: seq<int>, t1: seq<int>, t2: seq<int>)
    requires t0 + acc == liv + t1 && t1 + a == l + t2
    ensures t0 + (acc + a) == (liv + l) + t2
  {
    assert t0 + (acc + a) == (t0 + acc) + a;
    assert (liv + t1) + a == liv + (t1 + a);
    assert liv + (l + t2) == (liv + l) + t2;
  }

  /** Between resets, a queue delivers exactly the messages it accepts, in the order in which it
      accepted them; what is not delivered yet is in its buffer. */
  lemma {:induction false} CourseMessages(ss: seq<Noyau>, actes: seq<Appel>, fid: int, n: nat)
    requires Course(ss, actes) && n <= |actes| && Inv(ss[0])
    requires forall i :: 0 <= i < n ==> actes[i] != SysPreset(fid) && actes[i] != SysPdelete(fid)
    ensures Tampon(ss[0], fid) + TousAcceptes(ss, actes, fid, n) == TousLivres(ss, actes, fid, n) + Tampon(ss[n], fid)
    decreases n
  {
    hide Inv, Faire, Acceptes, Livres, Tampon;
    if n > 0 {
      CourseMessages(ss, actes, fid, n - 1);
      CourseInv(ss, actes, n - 1);
      Etape(ss, actes, n - 1);
      MessagesConserves(ss[n-1], actes[n-1], fid);
      Recolle(Tampon(ss[0], fid), TousAcceptes(ss, actes, fid, n - 1), Acceptes(ss[n-1], actes[n-1], fid),
              TousLivres(ss, actes, fid, n - 1), Livres(ss[n-1], actes[n-1], fid), Tampon(ss[n-1], fid), Tampon(ss[n], fid));
    }
  }

  // ----- Semaphores over a run ---------------------------------------------------------------------

  function TousApports(ss: seq<Noyau>, actes: seq<Appel>, sid: int, n: nat): int
    requires n <= |actes| <= |ss|
  {
    if n == 0 then 0 else TousApports(ss, actes, sid, n - 1) + Apport(ss[n-1], actes[n-1], sid)
  }

  function TousEntrants(ss: seq<Noyau>, actes: seq<Appel>, sid: int, n: nat): seq<int>
    requires n <= |actes| <= |ss|
  {
    if n == 0 then [] else TousEntrants(ss, actes, sid, n - 1) + Entrant(ss[n-1], actes[n-1], sid)
  }

  function TousSortants(ss: seq<Noyau>, actes: seq<Appel>, sid: int, n: nat): seq<int>
    requires n <= |actes| <= |ss|
  {
    if n == 0 then [] else TousSortants(ss, actes, sid, n - 1) + Sortants(ss[n-1], actes[n-1], sid)
  }

  /** Since its count was last set, and as long as none of its own waiters is killed: the count of a
      semaphore is that value plus the signals minus the waits, it fits in 16 bits, minus a
      negative count is the number of waiters, and they are released in the order in which they
      blocked. */
  lemma {:induction false} CourseSemaphore(ss: seq<Noyau>, actes: seq<Appel>, sid: int, n: nat)
    requires Course(ss, actes) && n <= |actes| && Inv(ss[0]) && Bornes(ss[0]) && sid in ss[0].sems && Compte(ss[0], sid)
    requires forall i :: 0 <= i < n ==> !TueSurSem(ss[i], actes[i], sid) && !Reinitialise(actes[i], sid)
    ensures sid in ss[n].sems && ss[n].sems[sid] == ss[0].sems[sid] + TousApports(ss, actes, sid, n)
    ensures Chaine(ss[0], AttenteSem(sid)) + TousEntrants(ss, actes, sid, n) == TousSortants(ss, actes, sid, n) + Chaine(ss[n], AttenteSem(sid))
    ensures SHORTINT_MIN <= ss[n].sems[sid] <= SHORTINT_MAX
    ensures |Chaine(ss[n], AttenteSem(sid))| == if ss[n].sems[sid] < 0 then -ss[n].sems[sid] else 0
    decreases n
  {
    hide Inv, Faire, Apport, Entrant, Sortants, Chaine, Bornes, TueSurSem, Compte;
    CourseInv(ss, actes, n);
    CourseComptes1(ss, actes, sid, n);
    if n > 0 {
      CourseSemaphore(ss, actes, sid, n - 1);
      CourseBornes(ss, actes, n - 1);
      Etape(ss, actes, n - 1);
      SemaphoreTenu(ss[n-1], actes[n-1], sid);
      Recolle(Chaine(ss[0], AttenteSem(sid)), TousEntrants(ss, actes, sid, n - 1), Entrant(ss[n-1], actes[n-1], sid),
              TousSortants(ss, actes, sid, n - 1), Sortants(ss[n-1], actes[n-1], sid),
              Chaine(ss[n-1], AttenteSem(sid)), Chaine(ss[n], AttenteSem(sid)));
    }
    TailleAttente(ss[n], sid);
    SemBorne(ss[n], sid);
  }

  /** The count of one semaphore keeps telling the truth, whatever happens to the others. */
  lemma {:induction false} CourseComptes1(ss: seq<Noyau>, actes: seq<Appel>, sid: int, n: nat)
    requires Course(ss, actes) && n <= |actes| && Inv(ss[0]) && Bornes(ss[0]) && sid in ss[0].sems && Compte(ss[0], sid)
    requires forall i :: 0 <= i < n ==> !TueSurSem(ss[i], actes[i], sid) && !Reinitialise(actes[i], sid)
    ensures sid in ss[n].sems && Compte(ss[n], sid)
    decreases n
  {
    hide Inv, Faire, Bornes, TueSurSem, Compte;
    if n > 0 {
      CourseComptes1(ss, actes, sid, n - 1);
      CourseBornes(ss, actes, n - 1);
      Etape(ss, actes, n - 1);
      BilanCompte(ss[n-1], actes[n-1], sid);
    }
  }

  lemma TailleAttente(s: Noyau, sid: int)
    requires Compte(s, sid) && sid in s.sems
    ensures |Chaine(s, AttenteSem(sid))| == if s.sems[sid] < 0 then -s.sems[sid] else 0
  {
  }

  lemma SemBorne(s: Noyau, sid: int)
    requires Inv(s) && sid in s.sems
    ensures SHORTINT_MIN <= s.sems[sid] <= SHORTINT_MAX
  {
  }

  function TousVerses(ss: seq<Noyau>, actes: seq<Appel>, sid: int, n: nat): nat
    requires n <= |actes| <= |ss|
  {
    if n == 0 then 0 else TousVerses(ss, actes, sid, n - 1) + Verse(ss[n-1], actes[n-1], sid)
  }

  function TousPassages(ss: seq<Noyau>, actes: seq<Appel>, sid: int, n: nat): nat
    requires n <= |actes| <= |ss|
  {
    if n == 0 then 0 else TousPassages(ss, actes, sid, n - 1) + Passages(ss[n-1], actes[n-1], sid)
  }

  /** Under the same conditions a semaphore is a counter that never goes below zero: the units it
      started with and those signals brought, less one for each wait that went through; a process
      waits only while there are none. */
  lemma {:induction false} CourseUnites(ss: seq<Noyau>, actes: seq<Appel>, sid: int, n: nat)
    requires Course(ss, actes) && n <= |actes| && Inv(ss[0]) && Bornes(ss[0]) && sid in ss[0].sems && Compte(ss[0], sid)
    requires forall i :: 0 <= i < n ==> !TueSurSem(ss[i], actes[i], sid) && !Reinitialise(actes[i], sid)
    ensures sid in ss[n].sems
    ensures Unites(ss[n], sid) == Unites(ss[0], sid) + TousVerses(ss, actes, sid, n) - TousPassages(ss, actes, sid, n)
    ensures Chaine(ss[n], AttenteSem(sid)) != [] ==> Unites(ss[n], sid) == 0
    decreases n
  {
    hide Inv, Faire, Verse, Passages, Chaine, Bornes, TueSurSem, Compte;
    if n > 0 {
      CourseUnites(ss, actes, sid, n - 1);
      CourseInv(ss, actes, n - 1);
      CourseBornes(ss, actes, n - 1);
      CourseComptes1(ss, actes, sid, n - 1);
      Etape(ss, actes, n - 1);
      UnitesTenues(ss[n-1], actes[n-1], sid);
    } else {
      TailleAttente(ss[0], sid);
    }
  }

  function ToutesVictimes(ss: seq<Noyau>, actes: seq<Appel>, sid: int, n: nat): nat
    requires n <= |actes| <= |ss|
  {
    if n == 0 then 0 else ToutesVictimes(ss, actes, sid, n - 1) + Victimes(ss[n-1], actes[n-1], sid)
  }

  /** Since its count was last set, whoever is killed: the waiters that the count of a semaphore
      promises and that are not there are exactly those that have been killed.  So the count
      tells the truth if and only if none was; otherwise it stays below zero by that many, and
      signal goes wrong as soon as nobody waits. */
  lemma {:induction false} CourseManque(ss: seq<Noyau>, actes: seq<Appel>, sid: int, n: nat)
    requires Course(ss, actes) && n <= |actes| && Inv(ss[0]) && Bornes(ss[0]) && sid in ss[0].sems && Compte(ss[0], sid)
    requires forall i :: 0 <= i < n ==> !Reinitialise(actes[i], sid)
    ensures sid in ss[n].sems && ss[n].elu in ss[n].procs
    ensures Manque(ss[n], sid) == ToutesVictimes(ss, actes, sid, n)
    ensures Compte(ss[n], sid) <==> ToutesVictimes(ss, actes, sid, n) == 0
    ensures ToutesVictimes(ss, actes, sid, n) > 0 ==> ss[n].sems[sid] + ToutesVictimes(ss, actes, sid, n) <= 0
    ensures Fatal(ss[n], SysSignal(sid)) <==> ToutesVictimes(ss, actes, sid, n) > 0 && Chaine(ss[n], AttenteSem(sid)) == []
    decreases n
  {
    hide Inv, Faire, Victimes, Bornes, Compte;
    CourseBornes(ss, actes, n);
    if n > 0 {
      CourseManque(ss, actes, sid, n - 1);
      CourseBornes(ss, actes, n - 1);
      Etape(ss, actes, n - 1);
      ManqueTenu(ss[n-1], actes[n-1], sid);
    }
    ManqueNul(ss[n], sid);
    TableElu(ss[n]);
  }

  lemma TableElu(s: Noyau)
    requires Inv(s)
    ensures s.elu in s.procs
  {
  }

  // ----- A blocked psend or preceive over a run -----------------------------------------------------

  /** Steps i to j: `p` blocks in psend or preceive on `fid` at step i, and first runs again at
      step j, not having been killed in between. */
  ghost predicate Bloquee(ss: seq<Noyau>, actes: seq<Appel>, p: int, i: nat, j: nat) {
    && Course(ss, actes) && Inv(ss[0]) && i < j < |actes|
    && ss[i].elu == p && (actes[i].SysPsend? || actes[i].SysPreceive?) && Legal(ss[i], actes[i]) && Faire(ss[i], actes[i]).Suspend?
    && ss[j].elu == p && actes[j].Reprise?
    && forall k :: i < k < j ==> actes[k] != SysKill(p) && !(actes[k].Reprise? && ss[k].elu == p)
  }

  /** The message `p` offers, or -1 for a receiver. */
  function Offert(a: Appel): int {
    if a.SysPsend? then a.message else -1
  }

  function Suspendue(a: Appel): Suite {
    if a.SysPsend? then DansPsend else DansPreceive
  }

  ghost predicate Evenement(ss: seq<Noyau>, actes: seq<Appel>, p: int, k: nat)
    requires k < |actes| <= |ss|
  {
    Sert(ss[k], actes[k], p) || Rejette(ss[k], actes[k], p)
  }

  /** `p` still blocked in the call `a` begun at step i, before step k. */
  ghost predicate ToujoursBloque(s: Noyau, p: int, a: Appel) {
    p in s.procs && (a.SysPsend? || a.SysPreceive?) && Bloque(s.procs[p], Suspendue(a), a.fid, Offert(a))
  }

  /** What the fields of `p` say after the event of step e. */
  ghost predicate Exauce(s: Noyau, p: int, a: Appel, t: Noyau, b: Appel) {
    p in s.procs && p in t.procs &&
    if Sert(t, b, p) then Servi(s.procs[p], Suspendue(a), Obtient(t, b, p), 1)
    else Servi(s.procs[p], Suspendue(a), Offert(a), 0)
  }

  lemma DebutBloque(s: Noyau, a: Appel)
    requires Inv(s) && Legal(s, a) && (a.SysPsend? || a.SysPreceive?) && Faire(s, a).Suspend?
    ensures ToujoursBloque(Faire(s, a).s, s.elu, a) && a.fid in s.files
  {
    hide Psend, Preceive, Inv;
    InvElu(s);
    if a.fid !in s.files { FileAbsente(s, a.fid, Offert(a)); assert false; }
    if a.SysPsend? { PsendSuivi(s, a.fid, a.message); } else { PreceiveSuivi(s, a.fid); }
  }

  /** One step of somebody else, seen by the blocked process. */
  lemma BloqueEvolue(s: Noyau, p: int, a: Appel, b: Appel, s': Noyau)
    requires ToujoursBloque(s, p, a) && Evolue(s, b, p, s')
    ensures if Sert(s, b, p) || Rejette(s, b, p) then Exauce(s', p, a, s, b) else ToujoursBloque(s', p, a)
  {
  }

  lemma ExauceEvolue(s: Noyau, p: int, a: Appel, t: Noyau, c: Appel, b: Appel, s': Noyau)
    requires Exauce(s, p, a, t, c) && Evolue(s, b, p, s')
    ensures Exauce(s', p, a, t, c) && !Sert(s, b, p) && !Rejette(s, b, p)
  {
  }

  lemma EncoreEnAppel(s: Noyau, p: int, a: Appel, t: Noyau, c: Appel)
    requires (a.SysPsend? || a.SysPreceive?) && (ToujoursBloque(s, p, a) || Exauce(s, p, a, t, c))
    ensures p in s.procs && EnAppel(s.procs[p])
  {
  }

  /** Before step k of a blocked call, either nothing has happened to it (e < 0), or exactly one
      event has, and the fields of the process hold its outcome. */
  ghost predicate Historique(ss: seq<Noyau>, actes: seq<Appel>, p: int, i: nat, k: nat, e: int) {
    && i < k < |ss| == |actes| + 1 && (e < 0 || i < e < k)
    && (forall x :: i < x < k && x != e ==> !Evenement(ss, actes, p, x))
    && if e < 0 then ToujoursBloque(ss[k], p, actes[i])
       else Evenement(ss, actes, p, e) && ToujoursBloque(ss[e], p, actes[i]) && Exauce(ss[k], p, actes[i], ss[e], actes[e])
  }

  lemma HistoriqueSuivant(ss: seq<Noyau>, actes: seq<Appel>, p: int, i: nat, k: nat, e: int) returns (e': int)
    requires Historique(ss, actes, p, i, k, e) && k < |actes| && Evolue(ss[k], actes[k], p, ss[k+1])
    ensures Historique(ss, actes, p, i, k + 1, e')
  {
    hide ToujoursBloque, Exauce, Evolue, Sert, Rejette;
    e' := e;
    if e < 0 {
      BloqueEvolue(ss[k], p, actes[i], actes[k], ss[k+1]);
      if Evenement(ss, actes, p, k) { e' := k; }
    } else {
      ExauceEvolue(ss[k], p, actes[i], ss[e], actes[e], actes[k], ss[k+1]);
    }
  }

  lemma {:induction false} Attendre(ss: seq<Noyau>, actes: seq<Appel>, p: int, i: nat, j: nat, k: nat) returns (e: int)
    requires Bloquee(ss, actes, p, i, j) && i < k <= j
    ensures Historique(ss, actes, p, i, k, e)
    decreases k
  {
    hide Inv, Faire, ToujoursBloque, Exauce, Evolue, Sert, Rejette, EnAppel, Legal;
    if k == i + 1 {
      e := -1;
      CourseInv(ss, actes, i);
      Etape(ss, actes, i);
      DebutBloque(ss[i], actes[i]);
    } else {
      var e0 := Attendre(ss, actes, p, i, j, k - 1);
      CourseInv(ss, actes, k - 1);
      Etape(ss, actes, k - 1);
      EncoreEnAppel(ss[k-1], p, actes[i], if e0 < 0 then ss[k-1] else ss[e0], if e0 < 0 then actes[i] else actes[e0]);
      assert actes[k-1] == actes[k-1];
      AppelEvolue(ss[k-1], actes[k-1], p);
      e := HistoriqueSuivant(ss, actes, p, i, k - 1, e0);
    }
  }

  /** psend blocked, then resumed: it answers 0 if and only if its message was accepted by the
      queue while it was blocked; that happened exactly once; otherwise it answers -1, and the
      queue was reset or deleted. */
  lemma PsendBloque(ss: seq<Noyau>, actes: seq<Appel>, p: int, i: nat, j: nat) returns (e: nat)
    requires Bloquee(ss, actes, p, i, j) && actes[i].SysPsend?
    ensures i < e < j && forall k :: i < k < j && k != e ==> !Evenement(ss, actes, p, k)
    ensures Faire(ss[j], actes[j]).Rend?
    ensures var f := actes[i].fid;
      if Faire(ss[j], actes[j]).code == 0 then Sert(ss[e], actes[e], p) && Acceptes(ss[e], actes[e], f) == [actes[i].message]
      else Faire(ss[j], actes[j]).code == -1 && (actes[e] == SysPreset(f) || actes[e] == SysPdelete(f))
  {
    hide Inv, Faire, Acceptes, Livres, Course;
    CourseLongueur(ss, actes);
    e := Denouement(ss, actes, p, i, j);
    CourseInv(ss, actes, e);
    SertReception(ss[e], actes[e], p);
    EvenementSeul(ss[e], actes[e], p, actes[i]);
  }

  /** The event that ends the wait, and the answer it leads to. */
  lemma Denouement(ss: seq<Noyau>, actes: seq<Appel>, p: int, i: nat, j: nat) returns (e: nat)
    requires Bloquee(ss, actes, p, i, j)
    ensures i < e < j && Evenement(ss, actes, p, e) && ToujoursBloque(ss[e], p, actes[i])
    ensures forall k :: i < k < j && k != e ==> !Evenement(ss, actes, p, k)
    ensures Faire(ss[j], actes[j]).Rend? && Faire(ss[j], actes[j]).code == (if Sert(ss[e], actes[e], p) then 0 else -1)
    ensures actes[i].SysPreceive? && Sert(ss[e], actes[e], p) ==> Faire(ss[j], actes[j]).valeur == Obtient(ss[e], actes[e], p)
  {
    hide Inv, Faire, Sert, Rejette, Course;
    var x := Attendre(ss, actes, p, i, j, j);
    CourseInv(ss, actes, j);
    Etape(ss, actes, j);
    SansAttente(ss[j]);
    CourseLongueur(ss, actes);
    EluPasBloque(ss[j], actes[i]);
    e := x;
    assert Exauce(ss[j], p, actes[i], ss[e], actes[e]);
    RepriseRend(ss[j], actes[j]);
  }

  lemma EluPasBloque(s: Noyau, a: Appel)
    requires Inv(s)
    ensures !ToujoursBloque(s, s.elu, a)
  {
  }

  lemma RepriseRend(s: Noyau, a: Appel)
    requires a.Reprise? && Legal(s, a) && (Elu(s).suite == DansPsend || Elu(s).suite == DansPreceive)
    ensures Faire(s, a).Rend? && Faire(s, a).code == (if Elu(s).operationStatus == 0 then -1 else 0)
    ensures Elu(s).suite == DansPreceive ==> Faire(s, a).valeur == Elu(s).fileValue
  {
  }

  /** preceive blocked, then resumed: it answers 0 with exactly the message handed to it by the
      one psend that served it, or it answers -1, and the queue was reset or deleted. */
  lemma PreceiveBloque(ss: seq<Noyau>, actes: seq<Appel>, p: int, i: nat, j: nat) returns (e: nat)
    requires Bloquee(ss, actes, p, i, j) && actes[i].SysPreceive?
    ensures i < e < j && forall k :: i < k < j && k != e ==> !Evenement(ss, actes, p, k)
    ensures Faire(ss[j], actes[j]).Rend?
    ensures var f := actes[i].fid;
      if Faire(ss[j], actes[j]).code == 0 then
        Sert(ss[e], actes[e], p) && Livres(ss[e], actes[e], f) == [Faire(ss[j], actes[j]).valeur]
      else Faire(ss[j], actes[j]).code == -1 && (actes[e] == SysPreset(f) || actes[e] == SysPdelete(f))
  {
    hide Inv, Faire, Acceptes, Livres, Course;
    CourseLongueur(ss, actes);
    e := Denouement(ss, actes, p, i, j);
    CourseInv(ss, actes, e);
    SertReception(ss[e], actes[e], p);
    EvenementSeul(ss[e], actes[e], p, actes[i]);
  }

  lemma EvenementSeul(s: Noyau, b: Appel, p: int, a: Appel)
    requires ToujoursBloque(s, p, a)
    ensures Sert(s, b, p) ==> (if a.SysPsend? then b == SysPreceive(a.fid) || b.SysPsend? else b.SysPsend? || b == SysPreceive(a.fid)) && b.fid == a.fid
    ensures Rejette(s, b, p) ==> b == SysPreset(a.fid) || b == SysPdelete(a.fid)
  {
  }

  /** A receiver is served by a psend only. */
  lemma SertReception(s: Noyau, a: Appel, p: int)
    requires Inv(s)
    ensures Sert(s, a, p) && s.procs[p].suite == DansPreceive ==>
      a.SysPsend? && Tampon(s, a.fid) == [] && Livres(s, a, a.fid) == [a.message]
    ensures Sert(s, a, p) && s.procs[p].suite == DansPsend ==>
      a.SysPreceive? && Acceptes(s, a, a.fid) == [s.procs[p].fileValue]
  {
    if Sert(s, a, p) { TeteEnAttente(s, s.procs[p].fid); }
  }

  // ----- Exit values over a run ---------------------------------------------------------------------

  /** Between steps i and j the pid `c` is not given to a new process. */
  ghost predicate PasRendu(ss: seq<Noyau>, actes: seq<Appel>, c: int, i: nat, j: nat)
    requires j <= |actes| <= |ss|
  {
    forall k {:trigger actes[k]} :: i < k < j && actes[k].SysStart? && Legal(ss[k], actes[k]) ==>
      !(Faire(ss[k], actes[k]).Rend? && Faire(ss[k], actes[k]).code == c)
  }

  /** The exit value of a child is returned by at most one waitpid: between two that return the
      same pid, that pid has been given to a new process. */
  lemma {:induction false} AbsentReste(ss: seq<Noyau>, actes: seq<Appel>, c: int, i: nat, j: nat)
    requires Course(ss, actes) && Inv(ss[0]) && i < j <= |actes| && c !in ss[i+1].procs && PasRendu(ss, actes, c, i, j)
    ensures c !in ss[j].procs
    decreases j
  {
    hide Inv, Faire;
    if j > i + 1 {
      AbsentReste(ss, actes, c, i, j - 1);
      CourseInv(ss, actes, j - 1);
      Etape(ss, actes, j - 1);
      if actes[j-1].SysStart? { StartRend(ss[j-1], actes[j-1]); }
      if c in ss[j].procs {
        Naissances(ss[j-1], actes[j-1], c);
        assert false;
      }
    }
  }

  lemma StartRend(s: Noyau, a: Appel)
    requires a.SysStart? && Legal(s, a)
    ensures Faire(s, a).Rend?
  {
  }

  lemma RecueilUnique(ss: seq<Noyau>, actes: seq<Appel>, c: int, v: int, w: int, i: nat, j: nat)
    requires Course(ss, actes) && Inv(ss[0]) && i < j < |actes|
    requires Recueille(ss[i], actes[i], c, v) && Recueille(ss[j], actes[j], c, w)
    ensures !PasRendu(ss, actes, c, i, j)
  {
    hide Inv, Faire, Recueille;
    CourseInv(ss, actes, i);
    CourseInv(ss, actes, j);
    Etape(ss, actes, i);
    Etape(ss, actes, j);
    RecueilExact(ss[i], actes[i], c, v);
    RecueilExact(ss[j], actes[j], c, w);
    if PasRendu(ss, actes, c, i, j) { AbsentReste(ss, actes, c, i, j); }
  }

  lemma {:induction false} LaisseeToujours(ss: seq<Noyau>, actes: seq<Appel>, c: int, v: int, i: nat, j: nat)
    requires Course(ss, actes) && Inv(ss[0]) && i < j <= |actes| && Laissee(ss[i+1], c, v) && PasRendu(ss, actes, c, i, j)
    ensures Laissee(ss[j], c, v)
    decreases j
  {
    hide Inv, Faire, Laissee;
    if j > i + 1 {
      LaisseeToujours(ss, actes, c, v, i, j - 1);
      CourseInv(ss, actes, j - 1);
      Etape(ss, actes, j - 1);
      if actes[j-1].SysStart? { StartRend(ss[j-1], actes[j-1]); }
      LaisseeReste(ss[j-1], actes[j-1], c, v);
    }
  }

  /** waitpid returns the very value its child passed to exit. */
  lemma ValeurDExit(ss: seq<Noyau>, actes: seq<Appel>, c: int, retval: int, v: int, i: nat, j: nat)
    requires Course(ss, actes) && Inv(ss[0]) && i < j < |actes|
    requires ss[i].elu == c && actes[i] == SysExit(retval) && PasRendu(ss, actes, c, i, j) && Recueille(ss[j], actes[j], c, v)
    ensures v == retval
  {
    hide Inv, Recueille, Exit;
    CourseInv(ss, actes, i);
    CourseInv(ss, actes, j);
    Etape(ss, actes, i);
    Etape(ss, actes, j);
    ExitLaisse(ss[i], retval);
    LaisseeToujours(ss, actes, c, retval, i, j);
    RecueilExact(ss[j], actes[j], c, v);
  }
}
