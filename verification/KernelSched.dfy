/** ordonnanceur (kernel/processus.c:335-368): reap, put the running process back, elect. */
module KernelSched {
  import opened PriorityQueue
  import opened KernelState
  import opened KernelMoves
  import opened KernelReap

  /** The `switch` on the state of the outgoing process. */
  function Remettre(s: Noyau): Noyau
    requires s.elu in s.procs
  {
    var e := s.procs[s.elu];
    match e.etat
    case MOURANT => Deplacer(s, s.elu, e, ProcMourants)
    case ELU => Deplacer(s, s.elu, e.(etat := ACTIVABLE), ProcActivables)
    case ACTIVABLE => Deplacer(s, s.elu, e.(etat := ACTIVABLE), ProcActivables)
    case _ => s
  }

  /** queue_out of the ready queue, and the switch to what it returned. */
  function Elire(s: Noyau): Noyau {
    var q := Chaine(s, ProcActivables);
    if q == [] || q[0] !in s.procs then s
    else Detacher(s, q[0], s.procs[q[0]].(etat := ELU)).(elu := q[0])
  }

  /** With an empty ready queue (Idle running alone) the call only reaps. */
  function Ordonnanceur(s: Noyau): Noyau {
    var s1 := FreeMourantQueue(s);
    if Chaine(s1, ProcActivables) == [] || s1.elu !in s1.procs then s1 else Elire(Remettre(s1))
  }

  /** No ready process outranks the running one. */
  ghost predicate Preeminent(s: Noyau) {
    s.elu in s.procs &&
    forall p :: p in Chaine(s, ProcActivables) && p in s.procs ==> s.procs[p].prio <= s.procs[s.elu].prio
  }

  // ----- Reaping keeps the invariant ----------------------------------------------------

  lemma {:induction false} CondamneEtat(s: Noyau, p: int)
    requires Coherent(s) && Condamne(s, p)
    ensures p in s.procs && p != IDLE && (s.procs[p].etat == ZOMBIE || s.procs[p].chainage == Dans(ProcMourants))
  {
    var n: nat :| CondamneEn(s, p, n);
  }

  lemma SurvivantsRanges(s: Noyau, s': Noyau, r: Anneau, p: int)
    requires Coherent(s) && Moissonne(s, s') && r != ProcMourants && p in Chaine(s, r)
    ensures p in s'.procs && s'.procs[p] == Survivant(s, p)
  {
    if Condamne(s, p) {
      CondamneEtat(s, p);
      assert false;
    }
  }

  lemma MoissonTri(s: Noyau, s': Noyau)
    requires Coherent(s) && Moissonne(s, s')
    ensures Tri(s')
  {
    forall r | r != ProcMourants && Trie(s, r) ensures Trie(s', r) {
      forall p | p in Chaine(s, r) ensures CleDe(s.procs, ChampDe(r), p) == CleDe(s'.procs, ChampDe(r), p) {
        SurvivantsRanges(s, s', r, p);
      }
      ClesStables(s.procs, s'.procs, ChampDe(r), Chaine(s, r));
    }
  }

  lemma MoissonFiles(s: Noyau, s': Noyau)
    requires Coherent(s) && Moissonne(s, s')
    ensures Files(s') && Sems(s')
  {
    forall f ensures AttenteSaine(s', f) {
      assert AttenteSaine(s, f);
    }
  }

  lemma PidsDisjoints(s: Noyau, s': Noyau, morts: seq<int>)
    requires Table(s) && PidsRendus(s, s', morts)
    requires forall p :: p in morts ==> p in s.procs && p != IDLE
    requires forall x :: x in s'.procs <==> x in s.procs && !Condamne(s, x)
    ensures NoDup(s'.libres)
    ensures forall p :: p in s'.libres <==> 1 <= p < MAX_PROCESS && p !in s'.procs
  {
    var l, n := s'.libres, |morts|;
    forall i | 0 <= i < |l| ensures l[i] == if i < n then morts[i] else s.libres[i-n] {
    }
    forall i, j | 0 <= i && Lt(i, j) && j < |l| ensures l[i] != l[j] {
      if i < n <= j {
        assert l[i] in morts && l[j] in s.libres;
      } else {
        assert Lt(i, j) && Lt(i - n, j - n);
      }
    }
    assert forall p :: p in l <==> p in morts || p in s.libres;
  }

  lemma MoissonTable(s: Noyau, s': Noyau, morts: seq<int>)
    requires Coherent(s) && Moissonne(s, s') && PidsRendus(s, s', morts) && !Condamne(s, s.elu)
    ensures Table(s')
  {
    forall p | p in morts ensures p in s.procs && p != IDLE {
      CondamneEtat(s, p);
    }
    assert IDLE !in morts;
    PidsDisjoints(s, s', morts);
  }

  lemma MoissonEtats(s: Noyau, s': Noyau)
    requires Coherent(s) && Moissonne(s, s') && !Condamne(s, s.elu)
    ensures Etats(s')
  {
    if Condamne(s, IDLE) { CondamneEtat(s, IDLE); assert false; }
  }

  lemma MoissonCoherent(s: Noyau)
    requires Coherent(s) && !Condamne(s, s.elu)
    ensures Moissonne(s, FreeMourantQueue(s)) && Coherent(FreeMourantQueue(s))
    ensures DefuntsSansPere(s) ==> DefuntsSansPere(FreeMourantQueue(s))
  {
    var s' := FreeMourantQueue(s);
    CoherentMoissonnable(s);
    var morts := FreeMourantQueueExact(s);
    MoissonTable(s, s', morts);
    MoissonEtats(s, s');
    MoissonTri(s, s');
    MoissonFiles(s, s');
  }

  // ----- Electing -----------------------------------------------------------------------

  /** What is ready once the outgoing process has been put back. */
  function FilePrete(s: Noyau): seq<int>
    requires s.elu in s.procs
  {
    var q, e := Chaine(s, ProcActivables), s.procs[s.elu];
    if e.etat == ELU then Insert(q, Rang(s.procs, ProcActivables, q, e), s.elu) else q
  }

  /** Idle is running or ready, so queue_out finds somebody. */
  lemma IdlePret(s: Noyau)
    requires Coherent(s)
    ensures s.elu != IDLE ==> Chaine(s, ProcActivables) != []
    ensures Chaine(s, ProcActivables) == [] ==> s.elu == IDLE && s.procs[s.elu].etat == ELU
  {
    assert s.elu != IDLE ==> IDLE in Chaine(s, ProcActivables);
  }

  /** The record of the outgoing process once put back. */
  function Remis(e: Processus): Processus {
    match e.etat
    case MOURANT => e.(chainage := Dans(ProcMourants))
    case ELU => e.(etat := ACTIVABLE, chainage := Dans(ProcActivables))
    case _ => e
  }

  ghost predicate Structure(s: Noyau) {
    Table(s) && Chainages(s) && Famille(s) && Files(s) && Sems(s) && Tri(s)
  }

  lemma RemettreEffet(s: Noyau)
    requires Structure(s) && s.procs[s.elu].etat != ACTIVABLE
    requires s.procs[s.elu].etat == ELU || s.procs[s.elu].etat == MOURANT ==> s.procs[s.elu].chainage == Libre
    requires s.procs[s.elu].chainage != Dans(ProcActivables)
    ensures Structure(Remettre(s)) && Remettre(s).elu == s.elu
    ensures Remettre(s).procs == s.procs[s.elu := Remis(s.procs[s.elu])]
    ensures Chaine(Remettre(s), ProcActivables) == FilePrete(s)
  {
    var e := s.procs[s.elu];
    HorsFile(s, s.elu, ProcActivables);
    if e.etat == MOURANT {
      DeplacerStructure(s, s.elu, e, ProcMourants);
      DeplacerEffet(s, s.elu, e, ProcMourants);
    } else if e.etat == ELU {
      DeplacerStructure(s, s.elu, e.(etat := ACTIVABLE), ProcActivables);
      DeplacerEffet(s, s.elu, e.(etat := ACTIVABLE), ProcActivables);
    } else {
      assert s.procs[s.elu := e] == s.procs;
    }
  }

  lemma TetePrete(s: Noyau) returns (n: int)
    requires Chainages(s) && Chaine(s, ProcActivables) != []
    requires forall p :: p in s.procs ==> Accord(s.procs[p]) && s.procs[p].etat != ELU
    ensures n == Chaine(s, ProcActivables)[0] && n in s.procs
    ensures s.procs[n].etat == ACTIVABLE && s.procs[n].chainage == Dans(ProcActivables)
  {
    n := Chaine(s, ProcActivables)[0];
    assert n in Chaine(s, ProcActivables);
  }

  lemma ElireEffet(s: Noyau, n: int)
    requires Structure(s) && Chaine(s, ProcActivables) != []
    requires n == Chaine(s, ProcActivables)[0] && n in s.procs
    requires s.procs[n].etat == ACTIVABLE && s.procs[n].chainage == Dans(ProcActivables)
    ensures Structure(Elire(s)) && Elire(s).elu == n
    ensures Chaine(Elire(s), ProcActivables) == Chaine(s, ProcActivables)[1..]
    ensures Elire(s).procs == s.procs[n := s.procs[n].(etat := ELU, chainage := Libre)]
  {
    var q := Chaine(s, ProcActivables);
    var rec := s.procs[n].(etat := ELU);
    var s1 := Detacher(s, n, rec);
    DetacherStructure(s, n, rec);
    assert s1.procs == s.procs[n := rec.(chainage := Libre)] && Chaine(s1, ProcActivables) == Without(q, n) by {
      DetacherEffet(s, n, rec);
    }
    WithoutHead(q);
    EluChange(s1, n);
  }

  lemma EluChange(s: Noyau, n: int)
    requires Structure(s) && n in s.procs
    ensures Structure(s.(elu := n))
    ensures forall r :: Chaine(s.(elu := n), r) == Chaine(s, r)
  {
    var s' := s.(elu := n);
    assert forall r :: Chaine(s', r) == Chaine(s, r);
    assert Tri(s') by {
      forall r | Trie(s, r) ensures Trie(s', r) {}
    }
    assert Files(s') by {
      forall f ensures AttenteSaine(s', f) { assert AttenteSaine(s, f); }
    }
  }

  lemma WithoutHead(q: seq<int>)
    requires q != []
    ensures Without(q, q[0]) == q[1..]
  {
    assert SlotOf(q, q[0]) == 0;
  }

  /** Once the outgoing process is put back, everybody agrees with its queue and nobody runs. */
  lemma RemisEtats(s: Noyau, s': Noyau)
    requires Etats(s) && s'.procs == s.procs[s.elu := Remis(s.procs[s.elu])]
    ensures forall p :: p in s'.procs ==> Accord(s'.procs[p]) && s'.procs[p].etat != ELU
    ensures s'.procs[IDLE].etat == ACTIVABLE
  {
  }

  lemma EluEtats(s: Noyau, s': Noyau, n: int)
    requires forall p :: p in s.procs ==> Accord(s.procs[p]) && s.procs[p].etat != ELU
    requires IDLE in s.procs && s.procs[IDLE].etat == ACTIVABLE
    requires n in s.procs && s'.elu == n && s'.procs == s.procs[n := s.procs[n].(etat := ELU, chainage := Libre)]
    ensures Etats(s')
  {
  }

  /** The head of a sorted queue is a maximum. */
  lemma TeteMaximale(s: Noyau)
    requires Chainages(s) && Trie(s, ProcActivables) && Chaine(s, ProcActivables) != []
    ensures var q := Chaine(s, ProcActivables);
      forall p :: p in q ==> p in s.procs && q[0] in s.procs && s.procs[p].prio <= s.procs[q[0]].prio
  {
    var q := Chaine(s, ProcActivables);
    assert q[0] in q;
    forall p | p in q ensures p in s.procs && s.procs[p].prio <= s.procs[q[0]].prio {
      var i := SlotOf(q, p);
      var keys := Cles(s.procs, Prio, q);
      assert i == 0 || Lt(0, i);
    }
  }

  /** ordonnanceur, called with any running process that is not itself being reaped, ends
      with the invariant and with a process of maximal priority running. */
  lemma OrdonnanceurInv(s: Noyau)
    requires Coherent(s) && DefuntsSansPere(s) && !Condamne(s, s.elu)
    ensures Inv(Ordonnanceur(s)) && Preeminent(Ordonnanceur(s))
    ensures Ordonnanceur(s) == Commutation(FreeMourantQueue(s)) && Moissonne(s, FreeMourantQueue(s))
  {
    MoissonCoherent(s);
    var s1 := FreeMourantQueue(s);
    assert s1.elu in s1.procs && s1.procs[s1.elu].chainage != Dans(ProcMourants) by {
      assert Chaine(s1, ProcMourants) == [];
    }
    CommutationInv(s1);
  }

  /** ordonnanceur once the dying have been reaped. */
  function Commutation(s: Noyau): Noyau
    requires s.elu in s.procs
  {
    if Chaine(s, ProcActivables) == [] then s else Elire(Remettre(s))
  }

  /** The process elected from state `s`, and the table and ready queue that follow. */
  ghost predicate Elit(s: Noyau, s': Noyau) {
    && s.elu in s.procs && FilePrete(s) != []
    && s'.elu == FilePrete(s)[0] && s'.elu in s.procs
    && Chaine(s', ProcActivables) == FilePrete(s)[1..]
    && (forall r :: r != ProcActivables && r != ProcMourants ==> Chaine(s', r) == Chaine(s, r))
    && (s.procs[s.elu].etat != MOURANT ==> Chaine(s', ProcMourants) == Chaine(s, ProcMourants))
    && var procs := s.procs[s.elu := Remis(s.procs[s.elu])];
       s'.procs == procs[s'.elu := procs[s'.elu].(etat := ELU, chainage := Libre)]
  }

  /** The two halves of a switch: `s2` is the table once the outgoing process is put back. */
  lemma CommutationEffet(s: Noyau) returns (s2: Noyau, n: int)
    ensures s2 == Remettre(s)
    requires Structure(s) && Etats(s) && s.procs[s.elu].chainage != Dans(ProcMourants)
    requires Chaine(s, ProcActivables) != []
    ensures s2.procs == s.procs[s.elu := Remis(s.procs[s.elu])] && Structure(s2)
    ensures Chaine(s2, ProcActivables) == FilePrete(s) && FilePrete(s) != [] && n == FilePrete(s)[0] && n in s.procs
    ensures Structure(Commutation(s)) && Commutation(s).elu == n
    ensures Chaine(Commutation(s), ProcActivables) == FilePrete(s)[1..]
    ensures Commutation(s).procs == s2.procs[n := s2.procs[n].(etat := ELU, chainage := Libre)]
    ensures forall p :: p in s2.procs ==> Accord(s2.procs[p]) && s2.procs[p].etat != ELU
    ensures s2.procs[IDLE].etat == ACTIVABLE
  {
    s2 := Remettre(s);
    RemettreEffet(s);
    RemisEtats(s, s2);
    n := TetePrete(s2);
    ElireEffet(s2, n);
  }

  /** A switch touches the ready queue, and the dying queue when the outgoing process dies. */
  lemma CommutationAutres(s: Noyau, r: Anneau)
    requires Structure(s) && Etats(s) && s.procs[s.elu].chainage != Dans(ProcMourants)
    requires Chaine(s, ProcActivables) != [] && r != ProcActivables
    requires r == ProcMourants ==> s.procs[s.elu].etat != MOURANT
    ensures Chaine(Commutation(s), r) == Chaine(s, r)
  {
    hide Commutation, Tri, Files, Sems, Famille;
    var s2, n := CommutationEffet(s);
    CommutationDef(s);
    RemettreAutre(s, r);
    ElireAutre(s2, r);
  }

  lemma CommutationDef(s: Noyau)
    requires s.elu in s.procs && Chaine(s, ProcActivables) != []
    ensures Commutation(s) == Elire(Remettre(s))
  {
  }

  lemma RemettreAutre(s: Noyau, r: Anneau)
    requires Structure(s) && Etats(s) && s.procs[s.elu].chainage != Dans(ProcMourants)
    requires r != ProcActivables && (r == ProcMourants ==> s.procs[s.elu].etat != MOURANT)
    ensures Chaine(Remettre(s), r) == Chaine(s, r)
  {
    hide Deplacer, Tri, Trie, Table;
    var e := s.procs[s.elu];
    if e.etat == ELU {
      HorsFile(s, s.elu, r);
      DeplacerEffet(s, s.elu, e.(etat := ACTIVABLE), ProcActivables);
    } else if e.etat == MOURANT {
      HorsFile(s, s.elu, r);
      DeplacerEffet(s, s.elu, e, ProcMourants);
    }
  }

  lemma ElireAutre(s: Noyau, r: Anneau)
    requires Structure(s) && r != ProcActivables
    ensures Chaine(Elire(s), r) == Chaine(s, r)
  {
    var q := Chaine(s, ProcActivables);
    if q != [] && q[0] in s.procs {
      assert q[0] in q;
      HorsFile(s, q[0], r);
      DetacherEffet(s, q[0], s.procs[q[0]].(etat := ELU));
      assert Chaine(Elire(s), r) == Chaine(Detacher(s, q[0], s.procs[q[0]].(etat := ELU)), r);
    }
  }

  lemma CommutationElit(s: Noyau)
    requires Structure(s) && Etats(s) && s.procs[s.elu].chainage != Dans(ProcMourants)
    requires Chaine(s, ProcActivables) != []
    ensures var s' := Commutation(s); Structure(s') && Etats(s') && s'.procs[s'.elu].etat == ELU && Elit(s, s')
  {
    var s2, n := CommutationEffet(s);
    EluEtats(s2, Commutation(s), n);
    forall r | r != ProcActivables && (r == ProcMourants ==> s.procs[s.elu].etat != MOURANT)
      ensures Chaine(Commutation(s), r) == Chaine(s, r)
    {
      CommutationAutres(s, r);
    }
  }

  lemma CommutationPreeminent(s: Noyau)
    requires Structure(s) && Etats(s) && s.procs[s.elu].chainage != Dans(ProcMourants)
    requires Chaine(s, ProcActivables) != []
    ensures DefuntsSansPere(s) ==> DefuntsSansPere(Commutation(s))
    ensures Preeminent(Commutation(s))
  {
    hide Commutation, Remettre, Trie;
    var s2, n := CommutationEffet(s);
    TeteMaximale(s2);
    ResteMoindre(s2, Commutation(s));
  }

  lemma CommutationInv(s: Noyau)
    requires Coherent(s) && DefuntsSansPere(s) && s.procs[s.elu].chainage != Dans(ProcMourants)
    ensures Inv(Commutation(s)) && Preeminent(Commutation(s))
    ensures Chaine(s, ProcActivables) != [] ==> Elit(s, Commutation(s))
  {
    if Chaine(s, ProcActivables) == [] {
      IdlePret(s);
    } else {
      CommutationElit(s);
      CommutationPreeminent(s);
    }
  }

  lemma ResteMoindre(s: Noyau, s': Noyau)
    requires Chaine(s, ProcActivables) != [] && Chaine(s', ProcActivables) == Chaine(s, ProcActivables)[1..]
    requires s'.elu == Chaine(s, ProcActivables)[0] && s'.elu in s.procs
    requires s'.procs == s.procs[s'.elu := s.procs[s'.elu].(etat := ELU, chainage := Libre)]
    requires forall p :: p in Chaine(s, ProcActivables) ==> p in s.procs && s.procs[p].prio <= s.procs[s'.elu].prio
    ensures Preeminent(s') && (DefuntsSansPere(s) ==> DefuntsSansPere(s'))
  {
    forall p | p in Chaine(s', ProcActivables) ensures p in Chaine(s, ProcActivables) {
      var i := SlotOf(Chaine(s', ProcActivables), p);
      assert Chaine(s, ProcActivables)[i+1] == p;
    }
  }

  /** ordonnanceur leaves every waiting list, the message buffers and the semaphores alone. */
  lemma OrdonnanceurAutres(s: Noyau, r: Anneau)
    requires Coherent(s) && !Condamne(s, s.elu)
    requires r != ProcActivables && r != ProcMourants
    ensures var s' := Ordonnanceur(s); Chaine(s', r) == Chaine(s, r) && s'.files == s.files && s'.sems == s.sems
  {
    var s1 := FreeMourantQueue(s);
    MoissonCoherent(s);
    MoissonHorsMourants(s1);
    assert Ordonnanceur(s) == Commutation(s1);
    if Chaine(s1, ProcActivables) != [] {
      CommutationAutres(s1, r);
      CommutationReste(s1);
    }
  }

  lemma RemettreReste(s: Noyau)
    requires s.elu in s.procs
    ensures Remettre(s).files == s.files && Remettre(s).sems == s.sems
  {
  }

  lemma ElireReste(s: Noyau)
    ensures Elire(s).files == s.files && Elire(s).sems == s.sems
  {
  }

  lemma CommutationReste(s: Noyau)
    requires s.elu in s.procs
    ensures Commutation(s).files == s.files && Commutation(s).sems == s.sems
  {
    if Chaine(s, ProcActivables) != [] {
      RemettreReste(s);
      ElireReste(Remettre(s));
    }
  }

  lemma MoissonHorsMourants(s: Noyau)
    requires Chainages(s) && s.elu in s.procs && Chaine(s, ProcMourants) == []
    ensures s.procs[s.elu].chainage != Dans(ProcMourants)
  {
    assert s.elu !in Chaine(s, ProcMourants);
  }

  // ----- Taking turns -------------------------------------------------------------------

  /** `k` successive time slices. */
  function Tours(s: Noyau, k: nat): Noyau {
    if k == 0 then s else Ordonnanceur(Tours(s, k - 1))
  }

  /** The running process and the first `m` ready ones. */
  function Tete(s: Noyau, m: nat): seq<int>
    requires m <= |Chaine(s, ProcActivables)|
  {
    [s.elu] + Chaine(s, ProcActivables)[..m]
  }

  function Tourne(g: seq<int>, k: nat): (r: seq<int>)
    requires k <= |g|
    ensures |r| == |g| && (k < |g| ==> r[0] == g[k])
  {
    g[k..] + g[..k]
  }

  lemma TourneUneFois(g: seq<int>, k: nat)
    requires k < |g|
    ensures Tourne(Tourne(g, k), 1) == Tourne(g, k + 1)
  {
  }

  /** The running process ties with exactly the first `m` ready ones, and nobody is dying. */
  ghost predicate ExAequo(s: Noyau, m: nat) {
    var q := Chaine(s, ProcActivables);
    && Inv(s) && Chaine(s, ProcMourants) == [] && m <= |q|
    && (forall i :: 0 <= i < m ==> q[i] in s.procs && s.procs[q[i]].prio == s.procs[s.elu].prio)
    && (m < |q| ==> q[m] in s.procs && s.procs[q[m]].prio < s.procs[s.elu].prio)
  }

  lemma RangDerriereEgaux(s: Noyau, m: nat)
    requires ExAequo(s, m)
    ensures var q := Chaine(s, ProcActivables);
            Rang(s.procs, ProcActivables, q, s.procs[s.elu]) == m && FilePrete(s) == Insert(q, m, s.elu)
  {
    var q := Chaine(s, ProcActivables);
    var keys := Cles(s.procs, Prio, q);
    assert Trie(s, ProcActivables);
    forall i | m <= i < |q| ensures keys[i] < s.procs[s.elu].prio {
      assert i == m || Lt(m, i);
    }
    PositionUnique(keys, s.procs[s.elu].prio, m);
  }

  lemma TourSequence(q: seq<int>, m: nat, e: int)
    requires m <= |q|
    ensures var r := Insert(q, m, e);
      [r[0]] + r[1..][..m] == Tourne([e] + q[..m], 1) && r[1..][m..] == q[m..] && |r[1..]| == |q|
  {
    var r := Insert(q, m, e);
    assert r[1..][m..] == q[m..];
    assert [r[0]] + r[1..][..m] == Tourne([e] + q[..m], 1);
  }

  lemma MemesPrios(s: Noyau, s': Noyau)
    requires Elit(s, s')
    ensures forall p :: p in s.procs ==> p in s'.procs && s'.procs[p].prio == s.procs[p].prio
  {
  }

  /** One slice: the running process goes to the back of its equals, the eldest runs. */
  lemma UnTourFile(s: Noyau, m: nat)
    requires ExAequo(s, m)
    ensures var s', q := Ordonnanceur(s), Chaine(s, ProcActivables);
      && Inv(s') && Chaine(s', ProcMourants) == [] && |Chaine(s', ProcActivables)| == |q|
      && Tete(s', m) == Tourne(Tete(s, m), 1) && Chaine(s', ProcActivables)[m..] == q[m..]
      && (forall p :: p in s.procs ==> p in s'.procs && s'.procs[p].prio == s.procs[p].prio)
  {
    var q := Chaine(s, ProcActivables);
    assert FreeMourantQueue(s) == s;
    CommutationInv(s);
    if q != [] {
      RangDerriereEgaux(s, m);
      TourSequence(q, m, s.elu);
      MemesPrios(s, Ordonnanceur(s));
    } else {
      assert Tourne([s.elu], 1) == [s.elu];
      assert q[..m] == [];
    }
  }

  lemma UnTour(s: Noyau, m: nat)
    requires ExAequo(s, m)
    ensures var s', q := Ordonnanceur(s), Chaine(s, ProcActivables);
      && ExAequo(s', m) && |Chaine(s', ProcActivables)| == |q|
      && Tete(s', m) == Tourne(Tete(s, m), 1) && Chaine(s', ProcActivables)[m..] == q[m..]
  {
    UnTourFile(s, m);
    var s', q := Ordonnanceur(s), Chaine(s, ProcActivables);
    var q', prio := Chaine(s', ProcActivables), s.procs[s.elu].prio;
    TeteEgale(s.procs, s'.procs, s.elu, q, s'.elu, q', m, prio);
    if m < |q| {
      assert q'[m] == q'[m..][0] && q[m] == q[m..][0];
    }
  }

  /** A permutation of processes of equal priority. */
  lemma TeteEgale(procs: map<int, Processus>, procs': map<int, Processus>, e: int, q: seq<int>, e': int, q': seq<int>,
                  m: nat, prio: int)
    requires m <= |q| && m <= |q'| && [e'] + q'[..m] == Tourne([e] + q[..m], 1)
    requires e in procs && procs[e].prio == prio
    requires forall i :: 0 <= i < m ==> q[i] in procs && procs[q[i]].prio == prio
    requires forall p :: p in procs ==> p in procs' && procs'[p].prio == procs[p].prio
    ensures e' in procs' && procs'[e'].prio == prio
    ensures forall i :: 0 <= i < m ==> q'[i] in procs' && procs'[q'[i]].prio == prio
  {
    var g := [e] + q[..m];
    var h := [e'] + q'[..m];
    assert h == g[1..] + [e];
    assert h[0] == e';
    forall i | 0 <= i < m ensures q'[i] in procs' && procs'[q'[i]].prio == prio {
      assert h[i+1] == q'[i];
      assert h[i+1] == if i + 1 < m then q[i+1] else e;
    }
    if m > 0 {
      assert h[0] == g[1..][0];
      assert g[1] == q[..m][0];
      assert e' == q[0] && procs[q[0]].prio == prio;
    } else {
      assert h == [e];
    }
  }

  /** n processes tied at the top: in n successive slices each of them is elected once, in
      order, and everything is back where it was. */
  lemma {:induction false} TourDeRole(s: Noyau, m: nat, k: nat)
    requires ExAequo(s, m) && k <= m + 1
    ensures var s', q := Tours(s, k), Chaine(s, ProcActivables);
      && ExAequo(s', m) && |Chaine(s', ProcActivables)| == |q|
      && Tete(s', m) == Tourne(Tete(s, m), k) && Chaine(s', ProcActivables)[m..] == q[m..]
    ensures k <= m ==> Tours(s, k).elu == Tete(s, m)[k]
    ensures k == m + 1 ==> Tours(s, k).elu == s.elu && Chaine(Tours(s, k), ProcActivables) == Chaine(s, ProcActivables)
  {
    if k == 0 {
      assert Tourne(Tete(s, m), 0) == Tete(s, m);
    } else {
      TourDeRole(s, m, k - 1);
      UnTour(Tours(s, k - 1), m);
      TourneUneFois(Tete(s, m), k - 1);
    }
    TourComplet(s.elu, Chaine(s, ProcActivables), Tours(s, k).elu, Chaine(Tours(s, k), ProcActivables), m, k);
  }

  lemma TourComplet(e: int, q: seq<int>, e': int, q': seq<int>, m: nat, k: nat)
    requires m <= |q| == |q'| && k <= m + 1
    requires [e'] + q'[..m] == Tourne([e] + q[..m], k) && q'[m..] == q[m..]
    ensures k <= m ==> e' == ([e] + q[..m])[k]
    ensures k == m + 1 ==> e' == e && q' == q
  {
    var g, h := [e] + q[..m], [e'] + q'[..m];
    assert h[0] == e';
    if k == m + 1 {
      assert Tourne(g, k) == g;
      assert h[1..] == q'[..m] && g[1..] == q[..m];
      assert q' == q'[..m] + q'[m..];
      assert q == q[..m] + q[m..];
    }
  }
}
