/** Waking processes, and the common end of a system call. */
module KernelWake {
  import opened PriorityQueue
  import opened KernelState
  import opened KernelMoves
  import opened KernelReap
  import opened KernelSched

  /** How a call ends: it has its return code (and the value stored through its pointer
      argument), it is suspended inside ordonnanceur, or an assertion or a null pointer stops
      the kernel.  A call that returns may have switched to another process just before. */
  datatype Issue = Rend(s: Noyau, code: int, valeur: int) | Suspend(s: Noyau) | Panique

  predicate EnAttente(e: Etat) {
    e == ENDORMI || e == ATTEND_FILS || e == ATTEND_FILE || e == ATTEND_SEMAPHORE || e == ATTEND_ES
  }

  /** Out of whatever queue it waits in, and into the ready queue. */
  function Reveil(s: Noyau, p: int, rec: Processus): Noyau
    requires p in s.procs
  {
    Deplacer(s, p, rec.(etat := ACTIVABLE), ProcActivables)
  }

  ghost predicate Activee(s: Noyau, p: int, rec: Processus, s': Noyau) {
    && s'.procs == s.procs[p := rec.(etat := ACTIVABLE, chainage := Dans(ProcActivables))]
    && s'.elu == s.elu && s'.files == s.files && s'.sems == s.sems
    && s'.libres == s.libres && s'.fidsLibres == s.fidsLibres && s'.sidsLibres == s.sidsLibres
    && (forall r :: r != ProcActivables ==> Chaine(s', r) == Without(Chaine(s, r), p))
    && (forall x :: x in Chaine(s', ProcActivables) <==> x == p || x in Chaine(s, ProcActivables))
  }

  lemma ReveilCoherent(s: Noyau, p: int, rec: Processus)
    requires Coherent(s) && p in s.procs && p != s.elu && EnAttente(s.procs[p].etat)
    requires rec.prio == s.procs[p].prio && rec.pere == s.procs[p].pere && rec.fils == s.procs[p].fils && AttenteFondee(rec)
    ensures Coherent(Reveil(s, p, rec)) && Activee(s, p, rec, Reveil(s, p, rec))
    ensures DefuntsSansPere(s) ==> DefuntsSansPere(Reveil(s, p, rec))
  {
    DeplacerCoherent(s, p, rec.(etat := ACTIVABLE), ProcActivables);
    ReveilEffet(s, p, rec);
  }

  lemma ReveilEffet(s: Noyau, p: int, rec: Processus)
    requires Chainages(s) && p in s.procs && s.procs[p].chainage != Dans(ProcActivables)
    ensures Activee(s, p, rec, Reveil(s, p, rec))
  {
    DeplacerEffet(s, p, rec.(etat := ACTIVABLE), ProcActivables);
    HorsFile(s, p, ProcActivables);
    var q := Chaine(s, ProcActivables);
    InsertElems(q, Rang(s.procs, ProcActivables, q, rec.(etat := ACTIVABLE)), p);
  }

  /** The fields a process finds on waking from a deleted or reset object. */
  function Marque(p: Processus, status: int): Processus {
    if p.etat == ATTEND_FILE then p.(fid := -1, operationStatus := status) else p.(operationStatus := status)
  }

  /** Waking the processes of `q` one after the other. */
  function ReveillerListe(s: Noyau, q: seq<int>, status: int): Noyau
    decreases |q|
  {
    if q == [] then s
    else ReveillerListe(if q[0] in s.procs then Reveil(s, q[0], Marque(s.procs[q[0]], status)) else s, q[1..], status)
  }

  predicate FileDAttente(r: Anneau) {
    r.AttenteFile? || r.AttenteSem?
  }

  /** Nothing but the table, `r` and the ready queue differs. */
  ghost predicate Videe(s: Noyau, r: Anneau, status: int, s': Noyau) {
    && s'.elu == s.elu && s'.files == s.files && s'.sems == s.sems
    && s'.libres == s.libres && s'.fidsLibres == s.fidsLibres && s'.sidsLibres == s.sidsLibres
    && s'.procs.Keys == s.procs.Keys
    && Chaine(s', r) == []
    && (forall r' :: r' != r && r' != ProcActivables ==> Chaine(s', r') == Chaine(s, r'))
    && (forall x :: x in Chaine(s', ProcActivables) <==> x in Chaine(s, r) || x in Chaine(s, ProcActivables))
    && (forall x :: x in s.procs ==>
          s'.procs[x] == if x in Chaine(s, r) then Marque(s.procs[x], status).(etat := ACTIVABLE, chainage := Dans(ProcActivables)) else s.procs[x])
  }

  /** Emptying a waiting list wakes exactly its members, each with the given status. */
  lemma {:induction false} ReveillerListeEffet(s: Noyau, r: Anneau, status: int)
    requires Coherent(s) && FileDAttente(r) && s.procs[s.elu].etat == ELU
    ensures var s' := ReveillerListe(s, Chaine(s, r), status);
      Coherent(s') && Videe(s, r, status, s') && (DefuntsSansPere(s) ==> DefuntsSansPere(s'))
    decreases |Chaine(s, r)|
  {
    var q := Chaine(s, r);
    if q != [] {
      var p := q[0];
      TeteBloquee(s, r);
      var rec := Marque(s.procs[p], status);
      var s1 := Reveil(s, p, rec);
      ReveilCoherent(s, p, rec);
      WithoutHead(q);
      assert Chaine(s1, r) == q[1..];
      ReveillerListeEffet(s1, r, status);
      VideeEncore(s, r, status, p, s1, ReveillerListe(s1, q[1..], status));
    }
  }

  lemma TeteBloquee(s: Noyau, r: Anneau)
    requires Chainages(s) && Etats(s) && Chaine(s, r) != [] && FileDAttente(r) && s.procs[s.elu].etat == ELU
    ensures var p := Chaine(s, r)[0];
      p in s.procs && p != s.elu && s.procs[p].chainage == Dans(r) &&
      (s.procs[p].etat == ATTEND_FILE || s.procs[p].etat == ATTEND_SEMAPHORE)
  {
    assert Chaine(s, r)[0] in Chaine(s, r);
  }

  /** The head of the waiting list `r` has become ready. */
  ghost predicate TeteActivee(s: Noyau, r: Anneau, rec: Processus, s': Noyau) {
    && Chaine(s, r) != []
    && s'.procs == s.procs[Chaine(s, r)[0] := rec.(etat := ACTIVABLE, chainage := Dans(ProcActivables))]
    && s'.elu == s.elu && s'.files == s.files && s'.sems == s.sems
    && Chaine(s', r) == Chaine(s, r)[1..]
    && (forall r' :: r' != r && r' != ProcActivables ==> Chaine(s', r') == Chaine(s, r'))
  }

  /** Waking the head of a waiting list. */
  lemma ReveilTeteEffet(s: Noyau, r: Anneau, p: int, rec: Processus)
    requires Chainages(s) && FileDAttente(r) && Chaine(s, r) != [] && p == Chaine(s, r)[0]
    requires p in s.procs && s.procs[p].chainage == Dans(r)
    ensures TeteActivee(s, r, rec, Reveil(s, p, rec))
  {
    ReveilEffet(s, p, rec);
    WithoutHead(Chaine(s, r));
    forall r' | r' != r && r' != ProcActivables ensures Chaine(Reveil(s, p, rec), r') == Chaine(s, r') {
      HorsFile(s, p, r');
    }
  }

  lemma VideeEncore(s: Noyau, r: Anneau, status: int, p: int, s1: Noyau, s': Noyau)
    requires Chainages(s) && FileDAttente(r) && Chaine(s, r) != [] && p == Chaine(s, r)[0]
    requires p in s.procs && s.procs[p].chainage == Dans(r)
    requires Activee(s, p, Marque(s.procs[p], status), s1) && Videe(s1, r, status, s')
    ensures Videe(s, r, status, s')
  {
    WithoutElems(Chaine(s, r), p);
    assert p in Chaine(s, r);
    forall r' | r' != r && r' != ProcActivables ensures Chaine(s', r') == Chaine(s, r') {
      HorsFile(s, p, r');
    }
  }

  /** Whether some process of `q` has a priority above `seuil`. */
  predicate Depasse(s: Noyau, q: seq<int>, seuil: int) {
    exists i :: 0 <= i < |q| && q[i] in s.procs && s.procs[q[i]].prio > seuil
  }

  /** Waking a list none of whose members outranks the running process. */
  lemma ReveillerListePreeminent(s: Noyau, r: Anneau, status: int)
    requires Inv(s) && FileDAttente(r) && Preeminent(s) && !Depasse(s, Chaine(s, r), s.procs[s.elu].prio)
    ensures Preeminent(ReveillerListe(s, Chaine(s, r), status))
  {
    ReveillerListeEffet(s, r, status);
    ListeMoindre(s, ReveillerListe(s, Chaine(s, r), status), r, status);
  }

  lemma ListeMoindre(s: Noyau, s': Noyau, r: Anneau, status: int)
    requires Videe(s, r, status, s') && Preeminent(s) && !Depasse(s, Chaine(s, r), s.procs[s.elu].prio)
    ensures Preeminent(s')
  {
    var q, seuil := Chaine(s, r), s.procs[s.elu].prio;
    forall p | p in Chaine(s', ProcActivables) && p in s'.procs ensures s'.procs[p].prio <= seuil {
      if p in q {
        var i := SlotOf(q, p);
        assert s.procs[q[i]].prio <= seuil;
      }
    }
  }

  /** The last line of most calls: switch if somebody more important was woken. */
  function Finir(s: Noyau, commute: bool): Noyau {
    if commute then Ordonnanceur(s) else s
  }

  lemma EluSauf(s: Noyau)
    requires Coherent(s) && s.procs[s.elu].etat != ZOMBIE && s.procs[s.elu].chainage != Dans(ProcMourants)
    ensures !Condamne(s, s.elu)
  {
    if Condamne(s, s.elu) {
      CondamneEtat(s, s.elu);
      assert false;
    }
  }

  lemma FinirInv(s: Noyau, commute: bool)
    requires Coherent(s) && DefuntsSansPere(s) && s.procs[s.elu].etat == ELU
    ensures Inv(Finir(s, commute))
    ensures commute ==> Preeminent(Finir(s, commute))
  {
    if commute {
      EluSauf(s);
      OrdonnanceurInv(s);
    }
  }

  /** Waking one process, then switching if it is the more important: the invariant, and no
      ready process left above the running one. */
  lemma ReveilFinirInv(s: Noyau, p: int, rec: Processus)
    requires Coherent(s) && DefuntsSansPere(s) && s.procs[s.elu].etat == ELU
    requires p in s.procs && p != s.elu && EnAttente(s.procs[p].etat)
    requires rec.prio == s.procs[p].prio && rec.pere == s.procs[p].pere && rec.fils == s.procs[p].fils && AttenteFondee(rec)
    ensures Inv(Finir(Reveil(s, p, rec), rec.prio > s.procs[s.elu].prio))
    ensures Preeminent(s) ==> Preeminent(Finir(Reveil(s, p, rec), rec.prio > s.procs[s.elu].prio))
  {
    ReveilCoherent(s, p, rec);
    FinirInv(Reveil(s, p, rec), rec.prio > s.procs[s.elu].prio);
  }

  /** Suspending the running process in the queue its new state calls for. */
  lemma SuspendreInv(s: Noyau, rec: Processus, r: Anneau)
    requires Inv(s) && s.elu != IDLE
    requires rec.prio == s.procs[s.elu].prio && rec.pere == s.procs[s.elu].pere && rec.fils == s.procs[s.elu].fils && AttenteFondee(rec)
    requires EnAttente(rec.etat) && Accord(rec.(chainage := Dans(r))) && Admis(s, rec, r)
    ensures var s' := Ordonnanceur(Deplacer(s, s.elu, rec, r)); Inv(s') && Preeminent(s')
  {
    hide Tri, Files, Sems, Trie;
    var s1 := Deplacer(s, s.elu, rec, r);
    DeplacerCoherent(s, s.elu, rec, r);
    DeplacerEffet(s, s.elu, rec, r);
    assert s1.procs[s.elu] == rec.(chainage := Dans(r));
    EluSauf(s1);
    OrdonnanceurInv(s1);
  }
}
