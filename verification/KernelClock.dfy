/** Sleeping, the clock and the keyboard (kernel/processus.c:416-474, kernel/console.c:225-229). */
module KernelClock {
  import opened PriorityQueue
  import opened KernelState
  import opened KernelMoves
  import opened KernelReap
  import opened KernelSched
  import opened KernelWake
  import opened KernelFiles

  function WaitClock(s: Noyau, ticks: int): Issue
    requires s.elu in s.procs
  {
    Suspend(Ordonnanceur(Deplacer(s, s.elu, Elu(s).(etat := ENDORMI, secReveille := ticks, suite := Utilisateur), ProcEndormis)))
  }

  /** cons_read while no line is available. */
  function ConsReadBloque(s: Noyau): Issue
    requires s.elu in s.procs
  {
    Suspend(Ordonnanceur(Deplacer(s, s.elu, Elu(s).(etat := ATTEND_ES, suite := DansConsRead), ProcBloqueEs)))
  }

  function ConsReadLu(s: Noyau): Issue
    requires s.elu in s.procs
  {
    Rend(Maj(s, s.elu, Elu(s).(suite := Utilisateur)), 0, 0)
  }

  /** How many sleepers of `q`, counted from the far end, are not due. */
  function Restants(procs: map<int, Processus>, q: seq<int>, ticks: int): (m: nat)
    ensures m <= |q|
  {
    if q == [] || CleDe(procs, SecReveille, q[|q|-1]) > ticks then |q|
    else Restants(procs, q[..|q|-1], ticks)
  }

  /** Waking the sleepers of `q` from slot |q|-1 down to slot `m`. */
  function Eveiller(s: Noyau, q: seq<int>, m: nat): Noyau
    requires m <= |q|
    decreases |q|
  {
    if |q| == m then s
    else
      var p := q[|q|-1];
      Eveiller(if p in s.procs then Reveil(s, p, s.procs[p]) else s, q[..|q|-1], m)
  }

  function VerifieReveille(s: Noyau, ticks: int): Noyau
    requires s.elu in s.procs
  {
    var q := Chaine(s, ProcEndormis);
    var m := Restants(s.procs, q, ticks);
    Finir(Eveiller(s, q, m), Depasse(s, q[m..], Elu(s).prio))
  }

  /** The comparison with the running process is the other way round from everywhere else. */
  function VerifieEs(s: Noyau): Noyau
    requires s.elu in s.procs
  {
    var q := Chaine(s, ProcBloqueEs);
    if q == [] || q[0] !in s.procs then s
    else Finir(Reveil(s, q[0], s.procs[q[0]]), Elu(s).prio > s.procs[q[0]].prio)
  }

  lemma SuspensionsInv(s: Noyau, ticks: int)
    requires Inv(s) && s.elu != IDLE
    ensures Inv(WaitClock(s, ticks).s) && Preeminent(WaitClock(s, ticks).s)
    ensures Inv(ConsReadBloque(s).s) && Preeminent(ConsReadBloque(s).s)
    ensures Inv(ConsReadLu(s).s) && (Preeminent(s) ==> Preeminent(ConsReadLu(s).s))
  {
    hide Ordonnanceur, Deplacer;
    SuspendreInv(s, Elu(s).(etat := ENDORMI, secReveille := ticks, suite := Utilisateur), ProcEndormis);
    SuspendreInv(s, Elu(s).(etat := ATTEND_ES, suite := DansConsRead), ProcBloqueEs);
    MajEluInv(s, Elu(s).(suite := Utilisateur));
  }

  lemma {:induction false} RestantsCoupe(procs: map<int, Processus>, q: seq<int>, ticks: int)
    ensures var m := Restants(procs, q, ticks);
      && (m > 0 ==> CleDe(procs, SecReveille, q[m-1]) > ticks)
      && (forall i :: m <= i < |q| ==> CleDe(procs, SecReveille, q[i]) <= ticks)
  {
    if q != [] && CleDe(procs, SecReveille, q[|q|-1]) <= ticks {
      RestantsCoupe(procs, q[..|q|-1], ticks);
    }
  }

  /** The sleepers are sorted by wake time, so stopping at the first one that is not due misses
      nobody. */
  lemma RestantsExact(s: Noyau, ticks: int)
    requires Trie(s, ProcEndormis)
    ensures var q := Chaine(s, ProcEndormis);
      var m := Restants(s.procs, q, ticks);
      forall i :: 0 <= i < |q| ==> (i < m <==> CleDe(s.procs, SecReveille, q[i]) > ticks)
  {
    var q := Chaine(s, ProcEndormis);
    var keys := Cles(s.procs, SecReveille, q);
    RestantsCoupe(s.procs, q, ticks);
    PrefixIsFilter(keys, Restants(s.procs, q, ticks), ticks);
    assert forall i :: 0 <= i < |q| ==> keys[i] == CleDe(s.procs, SecReveille, q[i]);
  }

  lemma WithoutLast(q: seq<int>)
    requires NoDup(q) && q != []
    ensures Without(q, q[|q|-1]) == q[..|q|-1]
    ensures q[|q|-1] !in q[..|q|-1] && NoDup(q[..|q|-1])
    ensures forall x :: x in q <==> x == q[|q|-1] || x in q[..|q|-1]
  {
    var n := |q| - 1;
    assert Cut(q, n) == q[..n];
    CutElems(q, n);
    var k := SlotOf(q, q[n]);
    assert k == n || Lt(k, n);
  }

  /** Exactly the sleepers past slot `m` have become ready. */
  ghost predicate Eveilles(s: Noyau, m: nat, s': Noyau) {
    var q := Chaine(s, ProcEndormis);
    && m <= |q| && s'.elu == s.elu && s'.procs.Keys == s.procs.Keys
    && Chaine(s', ProcEndormis) == q[..m]
    && (forall x :: x in s.procs ==>
          s'.procs[x] == if x in q && x !in q[..m] then s.procs[x].(etat := ACTIVABLE, chainage := Dans(ProcActivables)) else s.procs[x])
    && (forall x :: x in Chaine(s', ProcActivables) <==> x in Chaine(s, ProcActivables) || (x in q && x !in q[..m]))
  }

  lemma {:induction false} EveillerEffet(s: Noyau, m: nat)
    requires Coherent(s) && s.procs[s.elu].etat == ELU && m <= |Chaine(s, ProcEndormis)|
    ensures var s' := Eveiller(s, Chaine(s, ProcEndormis), m);
      Coherent(s') && Eveilles(s, m, s') && (DefuntsSansPere(s) ==> DefuntsSansPere(s'))
    decreases |Chaine(s, ProcEndormis)|
  {
    hide Reveil, Without;
    var q := Chaine(s, ProcEndormis);
    if |q| == m {
      assert q[..m] == q;
    } else {
      var p := q[|q|-1];
      assert p in q;
      ReveilCoherent(s, p, s.procs[p]);
      var s1 := Reveil(s, p, s.procs[p]);
      assert NoDup(q);
      WithoutLast(q);
      assert Chaine(s1, ProcEndormis) == q[..|q|-1];
      EveillerEffet(s1, m);
      EveillesEncore(s, m, p, s1, Eveiller(s1, q[..|q|-1], m));
    }
  }

  lemma EveillesEncore(s: Noyau, m: nat, p: int, s1: Noyau, s': Noyau)
    requires p in s.procs && Activee(s, p, s.procs[p], s1) && Eveilles(s1, m, s')
    requires var q := Chaine(s, ProcEndormis);
      q != [] && m < |q| && p == q[|q|-1] && NoDup(q) && Chaine(s1, ProcEndormis) == q[..|q|-1]
    ensures Eveilles(s, m, s')
  {
    var q := Chaine(s, ProcEndormis);
    WithoutLast(q);
    assert q[..|q|-1][..m] == q[..m];
    assert p !in q[..m] by {
      forall i | 0 <= i < m ensures q[i] != p { assert q[i] == q[..|q|-1][i]; }
    }
  }

  /** The clock wakes exactly the sleepers whose time has come, leaves exactly the others, in
      order, and switches if one of the woken outranks the running process. */
  lemma VerifieReveilleExact(s: Noyau, ticks: int)
    requires Inv(s)
    ensures Inv(VerifieReveille(s, ticks)) && (Preeminent(s) ==> Preeminent(VerifieReveille(s, ticks)))
    ensures var q := Chaine(s, ProcEndormis);
      var m := Restants(s.procs, q, ticks);
      && Eveilles(s, m, Eveiller(s, q, m))
      && (forall p :: p in q ==> p in s.procs && (p in q[..m] <==> s.procs[p].secReveille > ticks))
  {
    hide Ordonnanceur, Eveiller, Restants;
    var q := Chaine(s, ProcEndormis);
    var m := Restants(s.procs, q, ticks);
    EveillerEffet(s, m);
    RestantsExact(s, ticks);
    var s1 := Eveiller(s, q, m);
    FinirInv(s1, Depasse(s, q[m..], Elu(s).prio));
    forall p | p in q ensures p in s.procs && (p in q[..m] <==> s.procs[p].secReveille > ticks) {
      SeparesParRang(s, q, m, ticks, p);
    }
    if Preeminent(s) && !Depasse(s, q[m..], Elu(s).prio) {
      EveillesMoindres(s, m, s1);
    }
  }

  lemma SeparesParRang(s: Noyau, q: seq<int>, m: nat, ticks: int, p: int)
    requires Chainages(s) && q == Chaine(s, ProcEndormis) && m <= |q| && p in q
    requires forall i :: 0 <= i < |q| ==> (i < m <==> CleDe(s.procs, SecReveille, q[i]) > ticks)
    ensures p in s.procs && (p in q[..m] <==> s.procs[p].secReveille > ticks)
  {
    var i := SlotOf(q, p);
    if i < m { assert q[..m][i] == p; }
  }

  lemma DansPrefixe(q: seq<int>, m: nat, i: nat)
    requires m <= |q| && i < |q|
    ensures i < m ==> q[i] in q[..m]
  {
    if i < m { assert q[..m][i] == q[i]; }
  }

  lemma EveillesMoindres(s: Noyau, m: nat, s': Noyau)
    requires s.elu in s.procs && Eveilles(s, m, s') && Preeminent(s)
    requires !Depasse(s, Chaine(s, ProcEndormis)[m..], s.procs[s.elu].prio)
    requires s.elu !in Chaine(s, ProcEndormis)
    ensures Preeminent(s')
  {
    var q, seuil := Chaine(s, ProcEndormis), s.procs[s.elu].prio;
    forall p | p in Chaine(s', ProcActivables) && p in s'.procs ensures s'.procs[p].prio <= seuil {
      if p in q && p !in q[..m] {
        var i := SlotOf(q, p);
        DansPrefixe(q, m, i);
        assert q[m..][i-m] == p;
        assert s.procs[q[m..][i-m]].prio <= seuil;
      }
    }
  }

  /** verifie_es keeps the invariant, and keeps the priority rule exactly when the process it
      wakes does not outrank the running one. */
  lemma VerifieEsInv(s: Noyau)
    requires Inv(s)
    ensures Inv(VerifieEs(s))
    ensures Preeminent(s) ==>
      (Preeminent(VerifieEs(s)) <==> !Depasse(s, Chaine(s, ProcBloqueEs)[..if Chaine(s, ProcBloqueEs) == [] then 0 else 1], Elu(s).prio))
  {
    hide Ordonnanceur, Reveil, Tri, Files, Sems, Table;
    var q := Chaine(s, ProcBloqueEs);
    if q != [] {
      var p := q[0];
      assert p in q;
      ReveilCoherent(s, p, s.procs[p]);
      var s1 := Reveil(s, p, s.procs[p]);
      FinirInv(s1, Elu(s).prio > s.procs[p].prio);
      assert Depasse(s, q[..1], Elu(s).prio) <==> s.procs[p].prio > Elu(s).prio by {
        assert q[..1][0] == p;
      }
      assert p in Chaine(s1, ProcActivables);
    }
  }
}
