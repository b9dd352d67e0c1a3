/** Exactly when a call leaves a ready process that outranks the running one. */
module KernelRank {
  import opened PriorityQueue
  import opened KernelState
  import opened KernelMoves
  import opened KernelReap
  import opened KernelSched
  import opened KernelWake
  import opened KernelFiles
  import opened KernelSem
  import opened KernelDeath

  /** Whether `p` would outrank the running process if it were ready. */
  predicate Surpasse(s: Noyau, p: int) {
    p in s.procs && s.elu in s.procs && s.procs[p].prio > s.procs[s.elu].prio
  }

  lemma ActiveeRang(s: Noyau, p: int, rec: Processus, s': Noyau)
    requires Activee(s, p, rec, s') && p in s.procs && s.elu in s.procs && p != s.elu && rec.prio == s.procs[p].prio
    ensures Preeminent(s') <==> Preeminent(s) && !Surpasse(s, p)
  {
    if Preeminent(s') {
      assert p in Chaine(s', ProcActivables);
      forall x | x in Chaine(s, ProcActivables) && x in s.procs ensures s.procs[x].prio <= s.procs[s.elu].prio {
        assert x in Chaine(s', ProcActivables);
      }
    }
  }

  lemma VideeRang(s: Noyau, r: Anneau, status: int, s': Noyau)
    requires Videe(s, r, status, s') && s.elu in s.procs && s.elu !in Chaine(s, r)
    requires forall x :: x in Chaine(s, r) ==> x in s.procs
    ensures Preeminent(s') <==> Preeminent(s) && !Depasse(s, Chaine(s, r), s.procs[s.elu].prio)
  {
    var q, seuil := Chaine(s, r), s.procs[s.elu].prio;
    forall x | x in s.procs ensures s'.procs[x].prio == s.procs[x].prio {}
    if Preeminent(s') {
      forall x | x in Chaine(s, ProcActivables) && x in s.procs ensures s.procs[x].prio <= seuil {
        assert x in Chaine(s', ProcActivables) && x in s'.procs;
      }
      forall i | 0 <= i < |q| && q[i] in s.procs ensures s.procs[q[i]].prio <= seuil {
        var x := q[i];
        assert x in q && x in Chaine(s', ProcActivables) && x in s'.procs;
        assert s'.procs[x].prio == s.procs[x].prio;
      }
    }
    if Preeminent(s) && !Depasse(s, q, seuil) {
      ListeMoindre(s, s', r, status);
    }
  }

  lemma HorsAttente(s: Noyau, r: Anneau)
    requires Inv(s)
    ensures s.elu !in Chaine(s, r) && forall x :: x in Chaine(s, r) ==> x in s.procs
  {
  }

  /** sdelete and sreset wake without switching. */
  lemma SdeleteRang(s: Noyau, sid: int)
    requires Inv(s) && sid in s.sems
    ensures Preeminent(Sdelete(s, sid).s) <==> Preeminent(s) && !Depasse(s, Chaine(s, AttenteSem(sid)), Elu(s).prio)
  {
    hide ReveillerListe, Videe, Preeminent;
    var r := AttenteSem(sid);
    var s1 := ReveillerListe(s, Chaine(s, r), -3);
    ReveillerListeEffet(s, r, -3);
    HorsAttente(s, r);
    VideeRang(s, r, -3, s1);
    PreeminentPareil(s1, SemRetire(s1, sid));
  }

  lemma PreeminentPareil(s: Noyau, s': Noyau)
    requires s'.procs == s.procs && s'.anneaux == s.anneaux && s'.elu == s.elu
    ensures Preeminent(s) <==> Preeminent(s')
  {
    assert Chaine(s', ProcActivables) == Chaine(s, ProcActivables);
  }

  lemma SresetRang(s: Noyau, sid: int, count: int)
    requires Inv(s) && sid in s.sems && count >= 0
    ensures Preeminent(Sreset(s, sid, count).s) <==> Preeminent(s) && !Depasse(s, Chaine(s, AttenteSem(sid)), Elu(s).prio)
  {
    hide ReveillerListe, Videe, Preeminent;
    var r := AttenteSem(sid);
    var s1 := ReveillerListe(s, Chaine(s, r), -4);
    ReveillerListeEffet(s, r, -4);
    HorsAttente(s, r);
    VideeRang(s, r, -4, s1);
    PreeminentPareil(s1, MajSem(s1, sid, count));
  }

  // ----- signal and signaln -----------------------------------------------------------------

  lemma SignalTeteRang(s: Noyau, sid: int)
    requires Inv(s) && sid in s.sems && s.sems[sid] < 0 && Chaine(s, AttenteSem(sid)) != []
    ensures Chaine(s, AttenteSem(sid))[0] in s.procs && Signal(s, sid) == Rend(SignalTete(s, sid), 0, 0)
    ensures Preeminent(SignalTete(s, sid)) <==> Preeminent(s) && !Surpasse(s, Chaine(s, AttenteSem(sid))[0])
  {
    hide Reveil, Activee, Preeminent;
    TeteBloquee(s, AttenteSem(sid));
    SignalDeplie(s, sid);
    var p, s1 := Chaine(s, AttenteSem(sid))[0], MajSem(s, sid, s.sems[sid] + 1);
    MajSemCoherent(s, sid, s.sems[sid] + 1);
    var rec := s.procs[p].(operationStatus := 1);
    ReveilCoherent(s1, p, rec);
    ActiveeRang(s1, p, rec, Reveil(s1, p, rec));
    PreeminentPareil(s, s1);
  }

  /** signal lets the process it wakes outrank its caller. */
  lemma SignalRang(s: Noyau, sid: int)
    requires Inv(s) && Bornes(s) && sid in s.sems && !Signal(s, sid).Panique?
    ensures Signal(s, sid).Rend?
    ensures Preeminent(Signal(s, sid).s) <==> Preeminent(s) && !Depasse(s, Premiers(Chaine(s, AttenteSem(sid)), 1), Elu(s).prio)
  {
    hide Preeminent, SignalTete, Reveil;
    var q := Chaine(s, AttenteSem(sid));
    assert Borne(s, sid);
    if s.sems[sid] < 0 {
      SignalPanique(s, sid);
      SignalTeteRang(s, sid);
      assert Premiers(q, 1)[0] == q[0];
      assert Depasse(s, Premiers(q, 1), Elu(s).prio) <==> Surpasse(s, q[0]);
    } else {
      PreeminentPareil(s, Signal(s, sid).s);
    }
  }

  lemma {:induction false} SignauxRang(s: Noyau, sid: int, n: nat)
    requires Inv(s) && Bornes(s) && sid in s.sems && s.sems[sid] + n <= SHORTINT_MAX && !Signaux(s, sid, n).Panique?
    ensures Signaux(s, sid, n).Rend?
    ensures Preeminent(Signaux(s, sid, n).s) <==> Preeminent(s) && !Depasse(s, Premiers(Chaine(s, AttenteSem(sid)), n), Elu(s).prio)
    decreases n
  {
    hide Signal, Preeminent, Depasse;
    var q, seuil := Chaine(s, AttenteSem(sid)), Elu(s).prio;
    if n == 0 {
      assert !Depasse(s, Premiers(q, 0), seuil) by { DepasseVide(s, seuil); }
    } else {
      SignauxPremier(s, sid, n);
      SignalEffet(s, sid);
      SignalRang(s, sid);
      var s1 := Signal(s, sid).s;
      SignauxRang(s1, sid, n - 1);
      DepasseEncore(s, s1, sid, n, seuil);
    }
  }

  lemma DepasseVide(s: Noyau, seuil: int)
    ensures !Depasse(s, [], seuil)
  {
  }

  lemma DepasseEncore(s: Noyau, s1: Noyau, sid: int, n: nat, seuil: int)
    requires Inv(s) && n > 0 && Signale(s, sid, s1)
    ensures var q, q1 := Chaine(s, AttenteSem(sid)), Chaine(s1, AttenteSem(sid));
      && s1.elu in s1.procs && s1.procs[s1.elu].prio == s.procs[s.elu].prio
      && (Depasse(s, Premiers(q, n), seuil) <==> Depasse(s, Premiers(q, 1), seuil) || Depasse(s1, Premiers(q1, n - 1), seuil))
  {
    hide Inv, Depasse, Premiers;
    SignalPrios(s, s1, sid);
    var q, q1 := Chaine(s, AttenteSem(sid)), Chaine(s1, AttenteSem(sid));
    var a, b, c := Premiers(q, n), Premiers(q, 1), Premiers(q1, n - 1);
    PremiersSuite(q, q1, n);
    DepasseSomme(s, b, c, seuil);
    DepassePareil(s, s1, c, seuil);
  }

  lemma PremiersSuite(q: seq<int>, q1: seq<int>, n: nat)
    requires n > 0 && q1 == if q == [] then [] else q[1..]
    ensures Premiers(q, n) == Premiers(q, 1) + Premiers(q1, n - 1)
  {
  }

  lemma SignalPrios(s: Noyau, s1: Noyau, sid: int)
    requires Inv(s) && Signale(s, sid, s1)
    ensures s.elu in s.procs && s1.elu == s.elu && Chaine(s1, AttenteSem(sid)) == (if Chaine(s, AttenteSem(sid)) == [] then [] else Chaine(s, AttenteSem(sid))[1..])
    ensures forall x :: x in s.procs ==> x in s1.procs && s1.procs[x].prio == s.procs[x].prio
    ensures forall x :: x in s1.procs ==> x in s.procs
  {
    hide Tri, Files, Famille, Etats;
  }

  lemma DepasseSomme(s: Noyau, b: seq<int>, c: seq<int>, seuil: int)
    ensures Depasse(s, b + c, seuil) <==> Depasse(s, b, seuil) || Depasse(s, c, seuil)
  {
    var a := b + c;
    if Depasse(s, a, seuil) {
      var i :| 0 <= i < |a| && a[i] in s.procs && s.procs[a[i]].prio > seuil;
      assert a[i] == if i < |b| then b[i] else c[i-|b|];
    }
    if Depasse(s, b, seuil) {
      var i :| 0 <= i < |b| && b[i] in s.procs && s.procs[b[i]].prio > seuil;
      assert a[i] == b[i];
    }
    if Depasse(s, c, seuil) {
      var i :| 0 <= i < |c| && c[i] in s.procs && s.procs[c[i]].prio > seuil;
      assert a[|b|+i] == c[i];
    }
  }

  lemma DepassePareil(s: Noyau, s1: Noyau, c: seq<int>, seuil: int)
    requires forall x :: x in c ==> (x in s.procs <==> x in s1.procs) && (x in s.procs ==> s1.procs[x].prio == s.procs[x].prio)
    ensures Depasse(s1, c, seuil) <==> Depasse(s, c, seuil)
  {
    if Depasse(s1, c, seuil) {
      var i :| 0 <= i < |c| && c[i] in s1.procs && s1.procs[c[i]].prio > seuil;
      var x := c[i];
      assert x in c && x in s.procs && s.procs[c[i]].prio > seuil;
    }
    if Depasse(s, c, seuil) {
      var i :| 0 <= i < |c| && c[i] in s.procs && s.procs[c[i]].prio > seuil;
      var x := c[i];
      assert x in c && x in s1.procs && s1.procs[c[i]].prio > seuil;
    }
  }

  // ----- kill and waitpid ---------------------------------------------------------------------

  lemma MoissonRang(s: Noyau)
    requires Coherent(s) && DefuntsSansPere(s) && s.procs[s.elu].etat == ELU
    ensures Preeminent(FreeMourantQueue(s)) <==> Preeminent(s)
  {
    hide FreeMourantQueue;
    MoissonInv(s);
    var s' := FreeMourantQueue(s);
    assert s'.procs[s.elu].prio == s.procs[s.elu].prio;
    forall x | x in Chaine(s, ProcActivables) ensures x in s'.procs && s'.procs[x].prio == s.procs[x].prio {
      SurvivantsRanges(s, s', ProcActivables, x);
    }
  }

  /** kill wakes the father of its victim if that is what it waits for, without switching. */
  predicate Endeuille(s: Noyau, pid: int) {
    pid > IDLE && pid in s.procs && pid != s.elu && s.procs[pid].etat != ZOMBIE && s.procs[pid].etat != MOURANT
    && s.procs[pid].pere in s.procs && s.procs[s.procs[pid].pere].etat == ATTEND_FILS
  }

  lemma KillRang(s: Noyau, pid: int)
    requires Inv(s) && Preeminent(s) && !Kill(s, pid).Panique?
    ensures Preeminent(Kill(s, pid).s) <==> !(Endeuille(s, pid) && Surpasse(s, s.procs[pid].pere))
  {
    hide Detacher, Deplacer, Quitter, ReveilPere, FreeMourantQueue;
    if pid > IDLE && pid in s.procs && s.procs[pid].etat != ZOMBIE && s.procs[pid].etat != MOURANT {
      var p := s.procs[pid];
      if pid == s.elu {
        assert Kill(s, pid) == Quitter(Mourir(s, Elu(s), false));
        MourirInv(s, Elu(s), false);
        QuitterInv(Mourir(s, Elu(s), false));
      } else if p.pere != NULL {
        TuerFilsRang(s, pid);
      } else {
        var rec := p.(etat := MOURANT);
        MourirCoherent(s, pid, rec);
        var s1 := Deplacer(s, pid, rec, ProcMourants);
        DeplacerEffet(s, pid, rec, ProcMourants);
        DeplacerElu(s, pid, rec, ProcMourants);
        WithoutElems(Chaine(s, ProcActivables), pid);
        MoissonRang(s1);
      }
    }
  }

  lemma TuerFilsRang(s: Noyau, pid: int)
    requires Inv(s) && Preeminent(s) && pid in s.procs && pid != s.elu && pid != IDLE
    requires s.procs[pid].etat != ZOMBIE && s.procs[pid].etat != MOURANT && s.procs[pid].etat != ATTEND_FILS && s.procs[pid].pere != NULL
    ensures Preeminent(FreeMourantQueue(ReveilPere(Detacher(s, pid, s.procs[pid].(etat := ZOMBIE)), s.procs[pid].pere)))
      <==> !(Endeuille(s, pid) && Surpasse(s, s.procs[pid].pere))
  {
    hide Detacher, ReveilPere, FreeMourantQueue, Tri, Files, Sems, Trie;
    var p := s.procs[pid];
    var s1 := Detacher(s, pid, p.(etat := ZOMBIE));
    ZombieCoherent(s, pid, p.(etat := ZOMBIE));
    DetacherEffet(s, pid, p.(etat := ZOMBIE));
    WithoutElems(Chaine(s, ProcActivables), pid);
    assert Preeminent(s1);
    ReveilPereCoherent(s1, p.pere);
    ReveilPereRang(s1, p.pere);
    MoissonRang(ReveilPere(s1, p.pere));
  }

  lemma ReveilPereRang(s: Noyau, pere: int)
    requires Coherent(s) && DefuntsSansPere(s) && s.procs[s.elu].etat == ELU
    ensures Preeminent(ReveilPere(s, pere)) <==>
      Preeminent(s) && !(pere in s.procs && s.procs[pere].etat == ATTEND_FILS && Surpasse(s, pere))
  {
    hide Reveil, Activee, Preeminent;
    if pere in s.procs && s.procs[pere].etat == ATTEND_FILS {
      ReveilCoherent(s, pere, s.procs[pere]);
      ActiveeRang(s, pere, s.procs[pere], Reveil(s, pere, s.procs[pere]));
    }
  }

  lemma BoucleWaitpidRang(s: Noyau, pid: int)
    requires Inv(s) && Preeminent(s) && s.elu != IDLE && (pid >= 0 ==> pid in Elu(s).fils)
    ensures !BoucleWaitpid(s, pid).Panique? && Preeminent(BoucleWaitpid(s, pid).s)
  {
    hide Recueilli, FreeMourantQueue, Ordonnanceur, Detacher;
    var c := if pid < 0 then PremierZombie(s, Elu(s).fils)
             else if pid in s.procs && s.procs[pid].etat == ZOMBIE then pid else NULL;
    if c in s.procs && c != s.elu {
      RecueilliRang(s, c);
    } else {
      PatienterInv(s, pid);
    }
  }

  lemma RecueilliRang(s: Noyau, c: int)
    requires Inv(s) && Preeminent(s) && c in Elu(s).fils && c in s.procs && s.procs[c].etat == ZOMBIE && c != s.elu
    ensures Preeminent(FreeMourantQueue(Recueilli(s, c)))
  {
    hide Recueilli, FreeMourantQueue, Without;
    RecueilliCoherent(s, c);
    RecueilliFiles(s, c);
    RecueilliActivables(s, c);
    MoissonRang(Recueilli(s, c));
  }

  lemma RecueilliActivables(s: Noyau, c: int)
    requires Chainages(s) && s.elu in s.procs && c in s.procs && c != s.elu && s.procs[c].chainage == Libre
    ensures Chaine(Recueilli(s, c), ProcActivables) == Chaine(s, ProcActivables)
  {
    hide Deplacer, Without;
    var s1 := Maj(s, s.elu, Elu(s).(fils := Without(Elu(s).fils, c), suite := Utilisateur));
    MajChainages(s, s.elu, s1.procs[s.elu]);
    DeplacerEffet(s1, c, s.procs[c].(etat := MOURANT, pere := NULL), ProcMourants);
    assert Chaine(s1, ProcActivables) == Chaine(s, ProcActivables);
    HorsFile(s1, c, ProcActivables);
  }
}
