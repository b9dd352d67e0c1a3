/** What moving one process between queues keeps. */
module KernelMoves {
  import opened PriorityQueue
  import opened KernelState

  lemma ClesStables(procs: map<int, Processus>, procs': map<int, Processus>, c: Champ, q: seq<int>)
    requires forall x :: x in q ==> CleDe(procs, c, x) == CleDe(procs', c, x)
    ensures Cles(procs, c, q) == Cles(procs', c, q)
  {
  }

  lemma WithoutAbsent<T>(q: seq<T>, x: T)
    requires x !in q
    ensures Without(q, x) == q
  {
  }

  lemma HorsFile(s: Noyau, p: int, r: Anneau)
    requires Chainages(s) && p in s.procs && s.procs[p].chainage != Dans(r)
    ensures p !in Chaine(s, r) && Without(Chaine(s, r), p) == Chaine(s, r)
  {
    assert p !in Chaine(s, r);
    WithoutAbsent(Chaine(s, r), p);
  }

  lemma QueueDelEffet(s: Noyau, p: int)
    requires p in s.procs && Chainages(s)
    ensures QueueDel(s, p).procs == s.procs[p := s.procs[p].(chainage := Libre)]
    ensures forall r :: Chaine(QueueDel(s, p), r) == Without(Chaine(s, r), p)
  {
    if s.procs[p].chainage == Libre {
      assert s.procs[p].(chainage := Libre) == s.procs[p];
      assert s.procs[p := s.procs[p]] == s.procs;
    }
  }

  /** The queues after a move: `p` is gone from wherever it was and sits in `r` where
      queue_add puts it. */
  lemma DeplacerEffet(s: Noyau, p: int, rec: Processus, r: Anneau)
    requires p in s.procs && Chainages(s)
    ensures Deplacer(s, p, rec, r).procs == s.procs[p := rec.(chainage := Dans(r))]
    ensures var q := Without(Chaine(s, r), p);
            Chaine(Deplacer(s, p, rec, r), r) == Insert(q, Rang(s.procs, r, q, rec), p)
    ensures forall r' :: r' != r ==> Chaine(Deplacer(s, p, rec, r), r') == Without(Chaine(s, r'), p)
  {
    QueueDelEffet(s, p);
    var s1 := Maj(QueueDel(s, p), p, rec.(chainage := Libre));
    var q := Without(Chaine(s, r), p);
    assert Chaine(s1, r) == q;
    assert Cles(s.procs, ChampDe(r), q) == Cles(s1.procs, ChampDe(r), q) by {
      SansLui(s, p, r);
      ClesStables(s.procs, s1.procs, ChampDe(r), q);
    }
  }

  lemma SansLui(s: Noyau, p: int, r: Anneau)
    requires Chainages(s)
    ensures p !in Without(Chaine(s, r), p)
  {
    WithoutElems(Chaine(s, r), p);
  }

  lemma DetacherEffet(s: Noyau, p: int, rec: Processus)
    requires p in s.procs && Chainages(s)
    ensures Detacher(s, p, rec).procs == s.procs[p := rec.(chainage := Libre)]
    ensures forall r :: Chaine(Detacher(s, p, rec), r) == Without(Chaine(s, r), p)
  {
    QueueDelEffet(s, p);
  }

  lemma DeplacerChainages(s: Noyau, p: int, rec: Processus, r: Anneau)
    requires p in s.procs && Chainages(s)
    ensures Chainages(Deplacer(s, p, rec, r))
  {
    var s' := Deplacer(s, p, rec, r);
    DeplacerEffet(s, p, rec, r);
    forall r'
      ensures NoDup(Chaine(s', r'))
      ensures forall x :: x in Chaine(s', r') <==> (x != p && x in Chaine(s, r')) || (x == p && r' == r)
    {
      WithoutElems(Chaine(s, r'), p);
      if r' == r {
        var q := Without(Chaine(s, r), p);
        InsertElems(q, Rang(s.procs, r, q, rec), p);
      }
    }
  }

  lemma DetacherChainages(s: Noyau, p: int, rec: Processus)
    requires p in s.procs && Chainages(s)
    ensures Chainages(Detacher(s, p, rec))
  {
    var s' := Detacher(s, p, rec);
    DetacherEffet(s, p, rec);
    forall r'
      ensures NoDup(Chaine(s', r'))
      ensures forall x :: x in Chaine(s', r') <==> x != p && x in Chaine(s, r')
    {
      WithoutElems(Chaine(s, r'), p);
    }
  }

  /** Removing an element keeps a queue sorted. */
  lemma TrieSans(s: Noyau, s': Noyau, r: Anneau, p: int)
    requires Trie(s, r) && Chaine(s', r) == Without(Chaine(s, r), p) && NoDup(Chaine(s, r))
    requires forall x :: x in Chaine(s, r) && x != p ==> CleDe(s.procs, ChampDe(r), x) == CleDe(s'.procs, ChampDe(r), x)
    ensures Trie(s', r)
  {
    var q, c := Chaine(s, r), ChampDe(r);
    WithoutElems(q, p);
    ClesStables(s.procs, s'.procs, c, Without(q, p));
    if p in q {
      SortedCut(Cles(s.procs, c, q), SlotOf(q, p));
      assert Cles(s.procs, c, Without(q, p)) == Cut(Cles(s.procs, c, q), SlotOf(q, p));
    }
  }

  /** Inserting where queue_add inserts keeps a queue sorted, whatever key the element had before. */
  lemma TrieAvec(s: Noyau, p: int, rec: Processus, r: Anneau)
    requires p in s.procs && Chainages(s) && Trie(s, r)
    ensures Trie(Deplacer(s, p, rec, r), r)
  {
    var s' := Deplacer(s, p, rec, r);
    var q, c := Without(Chaine(s, r), p), ChampDe(r);
    assert Sorted(Cles(s.procs, c, q)) && p !in q by {
      WithoutElems(Chaine(s, r), p);
      var s1 := s.(anneaux := s.anneaux[r := q]);
      TrieSans(s, s1, r, p);
      assert Chaine(s1, r) == q;
    }
    DeplacerEffet(s, p, rec, r);
    ClesInserees(s.procs, s'.procs, r, q, p, rec);
  }

  lemma ClesInserees(procs: map<int, Processus>, procs': map<int, Processus>, r: Anneau, q: seq<int>, p: int, rec: Processus)
    requires Sorted(Cles(procs, ChampDe(r), q)) && p !in q
    requires procs' == procs[p := rec.(chainage := Dans(r))]
    ensures Sorted(Cles(procs', ChampDe(r), Insert(q, Rang(procs, r, q, rec), p)))
  {
    var k, c := Rang(procs, r, q, rec), ChampDe(r);
    SortedInsert(Cles(procs, c, q), Cle(rec, c));
    assert Cles(procs', c, Insert(q, k, p)) == Insert(Cles(procs, c, q), k, Cle(rec, c));
  }

  lemma DeplacerTri(s: Noyau, p: int, rec: Processus, r: Anneau)
    requires p in s.procs && Chainages(s) && Tri(s)
    ensures Tri(Deplacer(s, p, rec, r))
  {
    var s' := Deplacer(s, p, rec, r);
    DeplacerEffet(s, p, rec, r);
    forall r' | Trie(s, r') ensures Trie(s', r') {
      if r' == r {
        TrieAvec(s, p, rec, r);
      } else {
        TrieSans(s, s', r', p);
      }
    }
  }

  lemma DetacherTri(s: Noyau, p: int, rec: Processus)
    requires p in s.procs && Chainages(s) && Tri(s)
    ensures Tri(Detacher(s, p, rec))
  {
    var s' := Detacher(s, p, rec);
    DetacherEffet(s, p, rec);
    forall r' | Trie(s, r') ensures Trie(s', r') {
      TrieSans(s, s', r', p);
    }
  }

  /** Who may join the queue `r`. */
  ghost predicate Admis(s: Noyau, rec: Processus, r: Anneau) {
    && (r.AttenteFile? ==>
          && r.fid in s.files
          && (rec.suite == DansPreceive ==> s.files[r.fid].queueMsg == [])
          && (rec.suite == DansPsend ==> |s.files[r.fid].queueMsg| == s.files[r.fid].maxMsg))
    && (r.AttenteSem? ==> r.sid in s.sems)
  }

  lemma DeplacerAttente(s: Noyau, p: int, rec: Processus, r: Anneau, f: int)
    requires p in s.procs && Chainages(s) && AttenteSaine(s, f) && Admis(s, rec, r)
    ensures AttenteSaine(Deplacer(s, p, rec, r), f)
  {
    DeplacerEffet(s, p, rec, r);
    WithoutElems(Chaine(s, AttenteFile(f)), p);
    if r == AttenteFile(f) {
      var q := Without(Chaine(s, r), p);
      InsertElems(q, Rang(s.procs, r, q, rec), p);
    }
  }

  /** A queue of message waiters may lose members and keep its discipline. */
  lemma DeplacerFiles(s: Noyau, p: int, rec: Processus, r: Anneau)
    requires p in s.procs && Chainages(s) && Files(s) && Sems(s) && Admis(s, rec, r)
    ensures Files(Deplacer(s, p, rec, r)) && Sems(Deplacer(s, p, rec, r))
  {
    var s' := Deplacer(s, p, rec, r);
    forall f ensures AttenteSaine(s', f) {
      DeplacerAttente(s, p, rec, r, f);
    }
    forall k | Chaine(s', AttenteSem(k)) != [] ensures k in s.sems {
      DeplacerEffet(s, p, rec, r);
    }
  }

  lemma DetacherFiles(s: Noyau, p: int, rec: Processus)
    requires p in s.procs && Chainages(s) && Files(s) && Sems(s)
    ensures Files(Detacher(s, p, rec)) && Sems(Detacher(s, p, rec))
  {
    var s' := Detacher(s, p, rec);
    DetacherEffet(s, p, rec);
    forall f ensures AttenteSaine(s', f) {
      WithoutElems(Chaine(s, AttenteFile(f)), p);
      assert AttenteSaine(s, f);
    }
  }

  /** Same kin, and dying or not as before. */
  predicate MemeFamille(a: Processus, b: Processus) {
    a.pere == b.pere && a.fils == b.fils && (a.etat == MOURANT <==> b.etat == MOURANT)
    && (a.suite == b.suite || AttenteFondee(a))
  }

  predicate PrioPermise(p: int, rec: Processus) {
    0 <= rec.prio <= PRIO_MAX && (rec.prio == 0 <==> p == IDLE)
  }

  lemma MajFamille(s: Noyau, s': Noyau, p: int, rec: Processus)
    requires p in s.procs && Famille(s) && MemeFamille(rec, s.procs[p])
    requires s'.procs == s.procs[p := rec]
    ensures Famille(s')
  {
  }

  /** Moving a process keeps everything but the agreement of states and queues. */
  lemma DeplacerStructure(s: Noyau, p: int, rec: Processus, r: Anneau)
    requires p in s.procs && Table(s) && Chainages(s) && Famille(s) && Files(s) && Sems(s) && Tri(s)
    requires PrioPermise(p, rec) && MemeFamille(rec, s.procs[p]) && Admis(s, rec, r)
    ensures var s' := Deplacer(s, p, rec, r);
            Table(s') && Chainages(s') && Famille(s') && Files(s') && Sems(s') && Tri(s')
  {
    var s' := Deplacer(s, p, rec, r);
    assert s'.procs == s.procs[p := rec.(chainage := Dans(r))] by { DeplacerEffet(s, p, rec, r); }
    DeplacerChainages(s, p, rec, r);
    DeplacerTri(s, p, rec, r);
    DeplacerFiles(s, p, rec, r);
    MajFamille(s, s', p, rec.(chainage := Dans(r)));
  }

  lemma DetacherStructure(s: Noyau, p: int, rec: Processus)
    requires p in s.procs && Table(s) && Chainages(s) && Famille(s) && Files(s) && Sems(s) && Tri(s)
    requires PrioPermise(p, rec) && MemeFamille(rec, s.procs[p])
    ensures var s' := Detacher(s, p, rec);
            Table(s') && Chainages(s') && Famille(s') && Files(s') && Sems(s') && Tri(s')
  {
    var s' := Detacher(s, p, rec);
    assert s'.procs == s.procs[p := rec.(chainage := Libre)] by { DetacherEffet(s, p, rec); }
    DetacherChainages(s, p, rec);
    DetacherTri(s, p, rec);
    DetacherFiles(s, p, rec);
    MajFamille(s, s', p, rec.(chainage := Libre));
  }

  /** Moving a process to the queue its new state calls for keeps the invariant. */
  lemma DeplacerCoherent(s: Noyau, p: int, rec: Processus, r: Anneau)
    requires Coherent(s) && p in s.procs && p != IDLE
    requires PrioPermise(p, rec) && MemeFamille(rec, s.procs[p]) && Admis(s, rec, r)
    requires Accord(rec.(chainage := Dans(r)))
    requires p == s.elu ==> rec.etat != ACTIVABLE
    ensures Coherent(Deplacer(s, p, rec, r))
  {
    DeplacerStructure(s, p, rec, r);
    assert Deplacer(s, p, rec, r).procs == s.procs[p := rec.(chainage := Dans(r))] by { DeplacerEffet(s, p, rec, r); }
  }

  lemma DetacherCoherent(s: Noyau, p: int, rec: Processus)
    requires Coherent(s) && p in s.procs && p != IDLE
    requires PrioPermise(p, rec) && MemeFamille(rec, s.procs[p])
    requires p != s.elu ==> Accord(rec.(chainage := Libre)) && rec.etat != ELU
    requires p == s.elu ==> rec.etat != ACTIVABLE && (Accord(rec.(chainage := Libre)) || rec.etat == MOURANT)
    ensures Coherent(Detacher(s, p, rec))
  {
    DetacherStructure(s, p, rec);
    assert Detacher(s, p, rec).procs == s.procs[p := rec.(chainage := Libre)] by { DetacherEffet(s, p, rec); }
  }
}
