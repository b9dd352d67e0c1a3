/** start and chprio (kernel/processus.c:84-262). */
module KernelStart {
  import opened PriorityQueue
  import opened KernelState
  import opened KernelMoves
  import opened KernelReap
  import opened KernelSched
  import opened KernelWake
  import opened KernelFiles

  /** A process as start leaves it, before it is queued. */
  function Nouveau(s: Noyau, prio: int, etat: Etat): Processus {
    Processus(etat, prio, 0, Libre, if s.elu != IDLE then s.elu else NULL, [], 0, 0, 0, 0, Utilisateur)
  }

  /** The new process is in the table and in its father's list. */
  function Inscrit(s: Noyau, rec: Processus): Noyau
    requires s.libres != [] && s.elu in s.procs
  {
    var pid := s.libres[0];
    var procs := if s.elu != IDLE then s.procs[s.elu := Elu(s).(fils := [pid] + Elu(s).fils)] else s.procs;
    s.(libres := s.libres[1..], procs := procs[pid := rec])
  }

  /** `alloue`: the stack size does not overflow and the three allocations succeed.  On every
      failure the pid goes back to the head of the free list. */
  function Start(s: Noyau, prio: int, alloue: bool): Issue
    requires s.elu in s.procs
  {
    if s.libres == [] || prio <= 0 || prio > PRIO_MAX || !alloue then Rend(s, -1, 0)
    else
      var pid := s.libres[0];
      Rend(Finir(QueueAdd(Inscrit(s, Nouveau(s, prio, ACTIVABLE)), ProcActivables, pid), prio > Elu(s).prio), pid, 0)
  }

  /** `mot` is what the comparison on processus.c:239 reads.  The queue_top above it names the
      field `prio` where the link is `chainage`, so the word read is the link's own `prev`
      pointer; with the right name it would be the priority of the first ready process. */
  function Chprio(s: Noyau, pid: int, newPrio: int, mot: int): Issue
    requires s.elu in s.procs
  {
    if pid <= 0 || pid >= MAX_PROCESS || newPrio <= 0 || newPrio > PRIO_MAX then Rend(s, -1, 0)
    else if pid !in s.procs || s.procs[pid].etat == ZOMBIE then Rend(s, -1, 0)
    else
      var p := s.procs[pid];
      if pid == s.elu then Rend(Finir(Maj(s, pid, p.(prio := newPrio)), newPrio < mot), p.prio, 0)
      else if p.etat == ACTIVABLE then
        Rend(Finir(Deplacer(s, pid, p.(prio := newPrio), ProcActivables), Elu(s).prio < newPrio), p.prio, 0)
      else if p.etat == ATTEND_FILE then
        Rend(Deplacer(s, pid, p.(prio := newPrio), AttenteFile(p.fid)), p.prio, 0)
      else Rend(Maj(s, pid, p.(prio := newPrio)), p.prio, 0)
  }

  // ----- start ------------------------------------------------------------------------------

  lemma InscritTable(s: Noyau, prio: int)
    requires Table(s) && s.libres != [] && 0 < prio <= PRIO_MAX
    ensures Table(Inscrit(s, Nouveau(s, prio, ZOMBIE))) && s.libres[0] !in s.procs && s.libres[0] != IDLE
  {
    assert s.libres[0] in s.libres;
    NoDupTail(s.libres);
  }

  lemma InscritLiens(s: Noyau, prio: int)
    requires Chainages(s) && Etats(s) && s.libres != [] && s.libres[0] !in s.procs && s.libres[0] != IDLE
    ensures Chainages(Inscrit(s, Nouveau(s, prio, ZOMBIE))) && Etats(Inscrit(s, Nouveau(s, prio, ZOMBIE)))
    ensures forall r :: Chaine(Inscrit(s, Nouveau(s, prio, ZOMBIE)), r) == Chaine(s, r)
  {
    assert forall r :: Chaine(Inscrit(s, Nouveau(s, prio, ZOMBIE)), r) == Chaine(s, r);
  }

  /** A proof device: the newborn, were it a zombie, would already fit the invariant. */
  lemma InscritCoherent(s: Noyau, prio: int)
    requires Inv(s) && s.libres != [] && 0 < prio <= PRIO_MAX
    ensures Coherent(Inscrit(s, Nouveau(s, prio, ZOMBIE)))
    ensures forall r :: Chaine(Inscrit(s, Nouveau(s, prio, ZOMBIE)), r) == Chaine(s, r)
  {
    var s' := Inscrit(s, Nouveau(s, prio, ZOMBIE));
    InscritTable(s, prio);
    InscritLiens(s, prio);
    InscritFamille(s, prio);
    InscritEffet(s, Nouveau(s, prio, ZOMBIE));
    TriMemesCles(s, s');
    InscritFiles(s, s');
  }

  lemma InscritFiles(s: Noyau, s': Noyau)
    requires Files(s) && Sems(s) && Chainages(s) && forall r :: Chaine(s', r) == Chaine(s, r)
    requires s'.files == s.files && s'.fidsLibres == s.fidsLibres && s'.sems == s.sems && s'.sidsLibres == s.sidsLibres
    requires forall p :: p in s.procs ==> p in s'.procs && s'.procs[p].suite == s.procs[p].suite
    ensures Files(s') && Sems(s')
  {
    forall f ensures AttenteSaine(s', f) {
      assert AttenteSaine(s, f);
    }
  }

  lemma TriMemesCles(s: Noyau, s': Noyau)
    requires Chainages(s) && Tri(s) && forall r :: Chaine(s', r) == Chaine(s, r)
    requires forall p :: p in s.procs ==> p in s'.procs && s'.procs[p].prio == s.procs[p].prio && s'.procs[p].secReveille == s.procs[p].secReveille
    ensures Tri(s')
  {
    forall r | Trie(s, r) ensures Trie(s', r) {
      ClesStables(s.procs, s'.procs, ChampDe(r), Chaine(s, r));
    }
  }

  lemma InscritFamille(s: Noyau, prio: int)
    requires Inv(s) && s.libres != []
    ensures Famille(Inscrit(s, Nouveau(s, prio, ZOMBIE)))
  {
    hide Tri, Files, Sems, Trie, Etats, Chainages, Famille;
    var pid, rec := s.libres[0], Nouveau(s, prio, ZOMBIE);
    assert pid in s.libres && pid !in s.procs;
    var s' := Inscrit(s, rec);
    if s.elu != IDLE {
      NaissanceSousPere(s, s', s.elu, pid, rec);
    } else {
      NaissanceSansPere(s, s', pid, rec);
    }
  }

  lemma NaissanceSousPere(s: Noyau, s': Noyau, q: int, pid: int, rec: Processus)
    requires Famille(s) && q in s.procs && pid !in s.procs && pid != IDLE
    requires rec.pere == q && rec.fils == [] && rec.etat != MOURANT && AttenteFondee(rec)
    requires s'.procs == s.procs[q := s.procs[q].(fils := [pid] + s.procs[q].fils)][pid := rec]
    ensures Famille(s')
  {
    var fils := s.procs[q].fils;
    assert pid !in fils;
    InsertElems(fils, 0, pid);
    assert Insert(fils, 0, pid) == [pid] + fils;
  }

  lemma NaissanceSansPere(s: Noyau, s': Noyau, pid: int, rec: Processus)
    requires Famille(s) && pid !in s.procs && pid != IDLE
    requires rec.pere == NULL && rec.fils == [] && rec.etat != MOURANT && AttenteFondee(rec)
    requires s'.procs == s.procs[pid := rec]
    ensures Famille(s')
  {
  }

  lemma InscritAutrement(s: Noyau, prio: int)
    requires s.libres != [] && s.elu in s.procs
    ensures Deplacer(Inscrit(s, Nouveau(s, prio, ZOMBIE)), s.libres[0], Nouveau(s, prio, ACTIVABLE), ProcActivables)
      == QueueAdd(Inscrit(s, Nouveau(s, prio, ACTIVABLE)), ProcActivables, s.libres[0])
  {
    var pid, rec := s.libres[0], Nouveau(s, prio, ACTIVABLE);
    var s1 := Inscrit(s, Nouveau(s, prio, ZOMBIE));
    assert QueueDel(s1, pid) == s1;
    assert rec.(chainage := Libre) == rec;
    assert Maj(s1, pid, rec).procs == Inscrit(s, rec).procs;
  }

  /** Everybody else keeps state, priority and father. */
  lemma InscritEffet(s: Noyau, rec: Processus)
    requires s.libres != [] && s.elu in s.procs && s.libres[0] !in s.procs
    ensures var s', pid := Inscrit(s, rec), s.libres[0];
      && pid in s'.procs && s'.procs[pid] == rec && s'.elu == s.elu
      && forall x :: x in s.procs ==>
           && x != pid && x in s'.procs && s'.procs[x].prio == s.procs[x].prio
           && s'.procs[x].etat == s.procs[x].etat && s'.procs[x].pere == s.procs[x].pere
    ensures forall x :: x in Inscrit(s, rec).procs ==> x == s.libres[0] || x in s.procs
  {
  }

  /** Same, once the newborn has been queued. */
  lemma InscritPret(s: Noyau, prio: int)
    requires Inv(s) && s.libres != [] && 0 < prio <= PRIO_MAX
    ensures var s1, pid := Inscrit(s, Nouveau(s, prio, ZOMBIE)), s.libres[0];
      var s2 := Deplacer(s1, pid, Nouveau(s, prio, ACTIVABLE), ProcActivables);
      && pid !in s.procs && s1.elu == s.elu && DefuntsSansPere(s1) && Activee(s1, pid, Nouveau(s, prio, ACTIVABLE), s2) && Coherent(s2)
  {
    hide Deplacer, Inscrit, Activee;
    var pid := s.libres[0];
    assert pid in s.libres;
    InscritEffet(s, Nouveau(s, prio, ZOMBIE));
    var s1, rec := Inscrit(s, Nouveau(s, prio, ZOMBIE)), Nouveau(s, prio, ACTIVABLE);
    InscritCoherent(s, prio);
    DeplacerCoherent(s1, pid, rec, ProcActivables);
    ReveilEffet(s1, pid, rec);
  }

  /** The newborn in the ready queue. */
  lemma NouveauPret(s: Noyau, prio: int) returns (s2: Noyau)
    requires Inv(s) && s.libres != [] && 0 < prio <= PRIO_MAX
    ensures s2 == QueueAdd(Inscrit(s, Nouveau(s, prio, ACTIVABLE)), ProcActivables, s.libres[0])
    ensures Coherent(s2) && DefuntsSansPere(s2) && s2.elu == s.elu && s2.procs[s.elu].etat == ELU
    ensures s2.procs[s.elu].prio == s.procs[s.elu].prio && s.libres[0] in s2.procs && s2.procs[s.libres[0]].prio == prio
    ensures forall x :: x in Chaine(s2, ProcActivables) <==> x == s.libres[0] || x in Chaine(s, ProcActivables)
    ensures forall x :: x in s.procs ==> x != s.libres[0] && x in s2.procs && s2.procs[x].prio == s.procs[x].prio
  {
    hide Deplacer, Inscrit, Coherent, QueueAdd;
    var pid := s.libres[0];
    InscritPret(s, prio);
    Sujet(s, pid);
    InscritEffet(s, Nouveau(s, prio, ZOMBIE));
    var s1, rec := Inscrit(s, Nouveau(s, prio, ZOMBIE)), Nouveau(s, prio, ACTIVABLE);
    InscritCoherent(s, prio);
    InscritAutrement(s, prio);
    s2 := Deplacer(s1, pid, rec, ProcActivables);
  }

  lemma StartInv(s: Noyau, prio: int, alloue: bool)
    requires Inv(s)
    ensures !Start(s, prio, alloue).Panique? && Inv(Start(s, prio, alloue).s)
    ensures Preeminent(s) ==> Preeminent(Start(s, prio, alloue).s)
  {
    hide Inscrit, QueueAdd, Ordonnanceur;
    if s.libres != [] && 0 < prio <= PRIO_MAX && alloue {
      var s2 := NouveauPret(s, prio);
      FinirInv(s2, prio > Elu(s).prio);
    }
  }

  // ----- chprio -----------------------------------------------------------------------------

  /** Changing the priority of a process that sits in no queue sorted by it. */
  lemma MajPrioCoherent(s: Noyau, p: int, newPrio: int)
    requires Coherent(s) && DefuntsSansPere(s) && p in s.procs && p != IDLE && 0 < newPrio <= PRIO_MAX
    requires s.procs[p].etat != ACTIVABLE && s.procs[p].etat != ATTEND_FILE
    requires p == s.elu ==> s.procs[p].etat == ELU
    ensures Coherent(Maj(s, p, s.procs[p].(prio := newPrio))) && DefuntsSansPere(Maj(s, p, s.procs[p].(prio := newPrio)))
    ensures forall r :: Chaine(Maj(s, p, s.procs[p].(prio := newPrio)), r) == Chaine(s, r)
  {
    hide Tri, Files, Sems, Famille;
    var s' := Maj(s, p, s.procs[p].(prio := newPrio));
    assert forall r :: Chaine(s', r) == Chaine(s, r);
    MajFamille(s, s', p, s.procs[p].(prio := newPrio));
    MajPrioTri(s, p, newPrio);
    InscritFiles(s, s');
  }

  lemma MajPrioTri(s: Noyau, p: int, newPrio: int)
    requires Chainages(s) && Etats(s) && Tri(s) && p in s.procs && s.procs[p].etat != ACTIVABLE && s.procs[p].etat != ATTEND_FILE
    requires p == s.elu ==> s.procs[p].etat == ELU
    ensures Tri(Maj(s, p, s.procs[p].(prio := newPrio)))
  {
    var s' := Maj(s, p, s.procs[p].(prio := newPrio));
    assert forall r :: Chaine(s', r) == Chaine(s, r);
    forall r | Trie(s, r) && (r == ProcActivables || r == ProcEndormis || r.AttenteFile?) ensures Trie(s', r) {
      ClesStables(s.procs, s'.procs, ChampDe(r), Chaine(s, r));
    }
  }

  /** What chprio needs to know of its argument. */
  lemma Sujet(s: Noyau, p: int)
    requires Inv(s)
    ensures Coherent(s) && DefuntsSansPere(s) && s.elu in s.procs && s.procs[s.elu].etat == ELU && 0 <= s.elu < MAX_PROCESS
    ensures p in s.procs && p != s.elu ==> Accord(s.procs[p]) && s.procs[p].etat != ELU
    ensures p in s.procs && s.procs[p].etat != ACTIVABLE ==> p !in Chaine(s, ProcActivables)
  {
  }

  lemma ChprioInv(s: Noyau, pid: int, newPrio: int, mot: int)
    requires Inv(s)
    ensures !Chprio(s, pid, newPrio, mot).Panique? && Inv(Chprio(s, pid, newPrio, mot).s)
  {
    hide Deplacer, Ordonnanceur, Coherent, Chaine;
    Sujet(s, pid);
    if 0 < pid < MAX_PROCESS && 0 < newPrio <= PRIO_MAX && pid in s.procs && s.procs[pid].etat != ZOMBIE {
      var p := s.procs[pid];
      var rec := p.(prio := newPrio);
      if pid == s.elu {
        MajPrioCoherent(s, pid, newPrio);
        FinirInv(Maj(s, pid, rec), newPrio < mot);
      } else if p.etat == ACTIVABLE {
        ReplacerCoherent(s, pid, newPrio, ProcActivables);
        FinirInv(Deplacer(s, pid, rec, ProcActivables), Elu(s).prio < newPrio);
      } else if p.etat == ATTEND_FILE {
        ReplacerCoherent(s, pid, newPrio, AttenteFile(p.fid));
      } else {
        MajPrioCoherent(s, pid, newPrio);
      }
    }
  }

  /** Re-queuing a process under its new priority, in the queue it is in. */
  lemma ReplacerCoherent(s: Noyau, p: int, newPrio: int, r: Anneau)
    requires Inv(s) && p in s.procs && p != s.elu && p != IDLE && 0 < newPrio <= PRIO_MAX
    requires s.procs[p].etat == ACTIVABLE || s.procs[p].etat == ATTEND_FILE
    requires s.procs[p].chainage == Dans(r)
    ensures var s' := Deplacer(s, p, s.procs[p].(prio := newPrio), r);
      && Coherent(s') && DefuntsSansPere(s') && s'.elu == s.elu
      && s'.procs == s.procs[p := s.procs[p].(prio := newPrio)]
      && (forall x, r' :: x in Chaine(s', r') <==> x in Chaine(s, r'))
  {
    hide Deplacer;
    var rec := s.procs[p].(prio := newPrio);
    assert p in Chaine(s, r);
    if r.AttenteFile? { assert AttenteSaine(s, r.fid); }
    DeplacerCoherent(s, p, rec, r);
    ReplacerEffet(s, p, newPrio, r);
  }

  lemma ReplacerEffet(s: Noyau, p: int, newPrio: int, r: Anneau)
    requires Chainages(s) && p in s.procs && s.procs[p].chainage == Dans(r)
    ensures var s' := Deplacer(s, p, s.procs[p].(prio := newPrio), r);
      && s'.procs == s.procs[p := s.procs[p].(prio := newPrio)] && s'.elu == s.elu
      && (forall x, r' :: x in Chaine(s', r') <==> x in Chaine(s, r'))
  {
    hide Rang, Cles;
    var rec := s.procs[p].(prio := newPrio);
    assert p in Chaine(s, r);
    DeplacerEffet(s, p, rec, r);
    assert rec.(chainage := Dans(r)) == rec;
    forall x, r' ensures x in Chaine(Deplacer(s, p, rec, r), r') <==> x in Chaine(s, r') {
      WithoutElems(Chaine(s, r'), p);
      var q := Without(Chaine(s, r), p);
      InsertElems(q, Rang(s.procs, r, q, rec), p);
    }
  }

  /** chprio keeps "no ready process outranks the running one", except when the caller lowers
      its own priority below a ready process and the word compared does not show it. */
  lemma ChprioPreeminent(s: Noyau, pid: int, newPrio: int, mot: int)
    requires Inv(s) && Preeminent(s)
    ensures Preeminent(Chprio(s, pid, newPrio, mot).s) <==>
      !(pid == s.elu && pid != IDLE && 0 < newPrio <= PRIO_MAX && newPrio >= mot
        && Depasse(s, Chaine(s, ProcActivables), newPrio))
  {
    hide Deplacer, Ordonnanceur, Coherent, Chaine;
    Sujet(s, pid);
    if 0 < pid < MAX_PROCESS && 0 < newPrio <= PRIO_MAX && pid in s.procs && s.procs[pid].etat != ZOMBIE {
      var p := s.procs[pid];
      var rec := p.(prio := newPrio);
      if pid == s.elu {
        MajPrioCoherent(s, pid, newPrio);
        FinirInv(Maj(s, pid, rec), newPrio < mot);
        if newPrio >= mot { BaissePreeminent(s, pid, newPrio); }
      } else if p.etat == ACTIVABLE {
        ReplacerCoherent(s, pid, newPrio, ProcActivables);
        FinirInv(Deplacer(s, pid, rec, ProcActivables), Elu(s).prio < newPrio);
      } else if p.etat == ATTEND_FILE {
        ReplacerCoherent(s, pid, newPrio, AttenteFile(p.fid));
      } else {
        MajPrioCoherent(s, pid, newPrio);
      }
    }
  }

  lemma BaissePreeminent(s: Noyau, pid: int, newPrio: int)
    requires Inv(s) && pid == s.elu
    ensures Preeminent(Maj(s, pid, s.procs[pid].(prio := newPrio))) <==> !Depasse(s, Chaine(s, ProcActivables), newPrio)
  {
    var s', q := Maj(s, pid, s.procs[pid].(prio := newPrio)), Chaine(s, ProcActivables);
    assert Chaine(s', ProcActivables) == q;
    if Depasse(s, q, newPrio) {
      var i :| 0 <= i < |q| && q[i] in s.procs && s.procs[q[i]].prio > newPrio;
      assert q[i] in q;
    }
    forall p | !Depasse(s, q, newPrio) && p in q && p in s.procs ensures s'.procs[p].prio <= newPrio {
      var i := SlotOf(q, p);
      assert s.procs[q[i]].prio <= newPrio;
    }
  }

  /** Read as written, the comparison sees an address, which is above every priority; read with
      the field the code evidently means, it sees the first ready priority.  Either way the
      priority rule is kept. */
  lemma ChprioPreeminentLu(s: Noyau, pid: int, newPrio: int, mot: int)
    requires Inv(s) && Preeminent(s)
    requires mot > PRIO_MAX
      || (Chaine(s, ProcActivables) != [] && mot == CleDe(s.procs, Prio, Chaine(s, ProcActivables)[0]))
    ensures Preeminent(Chprio(s, pid, newPrio, mot).s)
  {
    ChprioPreeminent(s, pid, newPrio, mot);
    if mot <= PRIO_MAX {
      TeteMaximale(s);
    }
  }
}
