/** The lists of free chunks of shared/malloc.c.h: the bins are circular doubly linked lists
    threaded through the chunks (fd, bk), each closed by a header inside malloc_state; the
    fastbins are singly linked and end with a null pointer.  The header of bin i has the
    address -i here, so that no chunk can have it. */
module HeapLists {
  import opened MallocBins
  import opened HeapBlocks
  import opened PriorityQueue

  const NFASTS := 10   // fastbins

  type Liens = map<int, int>

  function Entete(i: int): int { -i }

  /** Slots -1 and |s| of bin i are both its header. */
  function Noeud(s: seq<int>, i: int, k: int): int {
    if 0 <= k < |s| then s[k] else Entete(i)
  }

  /** A node of bin i. */
  predicate Cotes(s: seq<int>, i: int, x: int) {
    x in s || x == Entete(i)
  }

  lemma NoeudCotes(s: seq<int>, i: int, k: int)
    requires -1 <= k <= |s|
    ensures Cotes(s, i, Noeud(s, i, k))
  {
  }

  ghost predicate Lien(fd: Liens, bk: Liens, s: seq<int>, i: int, k: int) {
    var b, f := Noeud(s, i, k - 1), Noeud(s, i, k);
    b in fd && fd[b] == f && f in bk && bk[f] == b
  }

  /** Bin i holds the chunks s, the first at its header's fd, the last at its bk. */
  ghost predicate Boucle(fd: Liens, bk: Liens, s: seq<int>, i: int) {
    forall k {:trigger Lien(fd, bk, s, i, k)} :: 0 <= k <= |s| ==> Lien(fd, bk, s, i, k)
  }

  ghost predicate Fleche(fd: Liens, s: seq<int>, k: int)
    requires 0 <= k < |s|
  {
    s[k] in fd && fd[s[k]] == if k + 1 < |s| then s[k + 1] else 0
  }

  /** A fastbin that starts at tete. */
  ghost predicate Pile(fd: Liens, tete: int, s: seq<int>) {
    && tete == (if s == [] then 0 else s[0])
    && forall k {:trigger Fleche(fd, s, k)} :: 0 <= k < |s| ==> Fleche(fd, s, k)
  }

  ghost predicate Noms(s: seq<int>) {
    NoDup(s) && forall x :: x in s ==> x > 0
  }

  lemma NoeudsDistincts(s: seq<int>, i: int, m: int, n: int)
    requires Noms(s) && i > 0 && -1 <= m < n <= |s| && (m >= 0 || n < |s|)
    ensures Noeud(s, i, m) != Noeud(s, i, n)
  {
    assert Lt(m, n);
    assert 0 <= m ==> s[m] in s;
    assert n < |s| ==> s[n] in s;
  }

  /** The macro unlink, for any chunk of a bin. */
  lemma UnlinkBoucle(fd: Liens, bk: Liens, s: seq<int>, i: int, j: nat)
    requires Boucle(fd, bk, s, i) && Noms(s) && i > 0 && j < |s|
    ensures s[j] in fd && s[j] in bk
    ensures fd[s[j]] == Noeud(s, i, j + 1) && bk[s[j]] == Noeud(s, i, j - 1)
    ensures var f, b := fd[s[j]], bk[s[j]];
      Boucle(fd[b := f], bk[f := b], Cut(s, j), i)
  {
    assert Lien(fd, bk, s, i, j) && Lien(fd, bk, s, i, j + 1);
    var f, b := fd[s[j]], bk[s[j]];
    var r := Cut(s, j);
    forall k {:trigger Lien(fd[b := f], bk[f := b], r, i, k)} | 0 <= k <= |r|
      ensures Lien(fd[b := f], bk[f := b], r, i, k)
    {
      if k < j {
        assert Lien(fd, bk, s, i, k);
        NoeudsDistincts(s, i, k - 1, j - 1);
        NoeudsDistincts(s, i, k, j + 1);
      } else if k > j {
        assert Lien(fd, bk, s, i, k + 1);
        NoeudsDistincts(s, i, j - 1, k);
        NoeudsDistincts(s, i, j + 1, k + 1);
      }
    }
  }

  /** The four writes by which a chunk is linked between two neighbours: its own two pointers,
      then the one of each neighbour that faced the other. */
  lemma InsererBoucle(fd: Liens, bk: Liens, s: seq<int>, i: int, j: nat, x: int)
    requires Boucle(fd, bk, s, i) && Noms(s) && i > 0 && j <= |s| && x > 0 && x !in s
    ensures var b, f := Noeud(s, i, j - 1), Noeud(s, i, j);
      Boucle(fd[x := f][b := x], bk[x := b][f := x], Insert(s, j, x), i)
  {
    var b, f := Noeud(s, i, j - 1), Noeud(s, i, j);
    var r := Insert(s, j, x);
    forall k {:trigger Lien(fd[x := f][b := x], bk[x := b][f := x], r, i, k)} | 0 <= k <= |r|
      ensures Lien(fd[x := f][b := x], bk[x := b][f := x], r, i, k)
    {
      if k < j {
        assert Lien(fd, bk, s, i, k);
        NoeudsDistincts(s, i, k - 1, j - 1);
        NoeudsDistincts(s, i, k, j);
        assert Noeud(s, i, k - 1) != x && x != Noeud(s, i, k);
      } else if k > j + 1 {
        assert Lien(fd, bk, s, i, k - 1);
        NoeudsDistincts(s, i, j - 1, k - 2);
        NoeudsDistincts(s, i, j, k - 1);
        assert Noeud(s, i, k - 2) != x && x != Noeud(s, i, k - 1);
      } else {
        assert b != x && x != f;
      }
    }
  }

  /** A bin reset to one chunk: the way malloc re-attaches a remainder. */
  lemma SeulBoucle(fd: Liens, bk: Liens, i: int, x: int)
    requires i > 0 && x > 0
    ensures Boucle(fd[Entete(i) := x][x := Entete(i)], bk[Entete(i) := x][x := Entete(i)], [x], i)
  {
  }

  /** Writing other chunks' links leaves a bin alone. */
  lemma AutreBoucle(fd: Liens, bk: Liens, fd2: Liens, bk2: Liens, s: seq<int>, i: int)
    requires Boucle(fd, bk, s, i)
    requires forall x {:trigger Cotes(s, i, x)} :: x in fd && Cotes(s, i, x) ==> x in fd2 && fd2[x] == fd[x]
    requires forall x {:trigger Cotes(s, i, x)} :: x in bk && Cotes(s, i, x) ==> x in bk2 && bk2[x] == bk[x]
    ensures Boucle(fd2, bk2, s, i)
  {
    forall k | 0 <= k <= |s| ensures Lien(fd2, bk2, s, i, k) {
      assert Lien(fd, bk, s, i, k);
      NoeudCotes(s, i, k - 1);
      NoeudCotes(s, i, k);
    }
  }

  lemma AutrePile(fd: Liens, fd2: Liens, tete: int, s: seq<int>)
    requires Pile(fd, tete, s)
    requires forall x :: x in fd && x in s ==> x in fd2 && fd2[x] == fd[x]
    ensures Pile(fd2, tete, s)
  {
    forall k | 0 <= k < |s| ensures Fleche(fd2, s, k) {
      var x := s[k];
      assert Fleche(fd, s, k) && x in fd && x in s;
    }
  }

  // ---- all the lists together

  datatype Listes = Listes(bacs: seq<seq<int>>, rapides: seq<seq<int>>)

  ghost predicate Chaines(fd: Liens, bk: Liens, fb: seq<int>, ls: Listes) {
    && |ls.bacs| == NBINS && |ls.rapides| == |fb| == NFASTS
    && (forall i {:trigger ls.bacs[i]} :: 1 <= i < NBINS ==> Boucle(fd, bk, ls.bacs[i], i))
    && (forall i {:trigger ls.rapides[i]} :: 0 <= i < NFASTS ==> Pile(fd, fb[i], ls.rapides[i]))
  }

  /** The list a chunk is in; Utilise stands for none. */
  function Ou(a: Blocs, p: int): Lieu {
    if p in a && (a[p].lieu.Bac? || a[p].lieu.Rapide?) then a[p].lieu else Utilise
  }

  ghost predicate Membres(a: Blocs, l: Lieu, s: seq<int>) {
    Noms(s) && forall p :: p in s <==> Ou(a, p) == l
  }

  ghost predicate Rangees(a: Blocs, ls: Listes) {
    && |ls.bacs| == NBINS && |ls.rapides| == NFASTS && ls.bacs[0] == []
    && (forall i {:trigger ls.bacs[i]} :: 1 <= i < NBINS ==> Membres(a, Bac(i), ls.bacs[i]))
    && (forall i {:trigger ls.rapides[i]} :: 0 <= i < NFASTS ==> Membres(a, Rapide(i), ls.rapides[i]))
  }

  /** p changes from one list (or none) to another. */
  ghost predicate Bouge(a: Blocs, b: Blocs, p: int, l: Lieu) {
    forall q {:trigger Ou(b, q)} :: Ou(b, q) == if q == p then l else Ou(a, q)
  }

  function RetireBac(ls: Listes, i: nat, j: nat): Listes
    requires i < |ls.bacs| && j < |ls.bacs[i]|
  {
    ls.(bacs := ls.bacs[i := Cut(ls.bacs[i], j)])
  }

  function MetBac(ls: Listes, i: nat, j: nat, x: int): Listes
    requires i < |ls.bacs| && j <= |ls.bacs[i]|
  {
    ls.(bacs := ls.bacs[i := Insert(ls.bacs[i], j, x)])
  }

  lemma MetBacAutres(ls: Listes, i: nat, j: nat, x: int)
    requires i < |ls.bacs| && j <= |ls.bacs[i]|
    ensures var r := MetBac(ls, i, j, x);
      && |r.bacs| == |ls.bacs| && r.rapides == ls.rapides && r.bacs[i] == Insert(ls.bacs[i], j, x)
      && forall k :: 0 <= k < |ls.bacs| && k != i ==> r.bacs[k] == ls.bacs[k]
  {
  }

  lemma UnlinkListes(a: Blocs, b: Blocs, fd: Liens, bk: Liens, fb: seq<int>, ls: Listes, i: nat, j: nat)
    requires Chaines(fd, bk, fb, ls) && Rangees(a, ls) && 1 <= i < NBINS && j < |ls.bacs[i]|
    requires Bouge(a, b, ls.bacs[i][j], Utilise)
    ensures var x := ls.bacs[i][j];
      && x in fd && x in bk
      && Chaines(fd[bk[x] := fd[x]], bk[fd[x] := bk[x]], fb, RetireBac(ls, i, j))
    ensures Rangees(b, RetireBac(ls, i, j))
  {
    hide Cut;
    var s := ls.bacs[i];
    var x := s[j];
    assert Membres(a, Bac(i), s);
    UnlinkBoucle(fd, bk, s, i, j);
    var fd2, bk2 := fd[bk[x] := fd[x]], bk[fd[x] := bk[x]];
    var r := RetireBac(ls, i, j);
    NoeudCotes(s, i, j - 1);
    NoeudCotes(s, i, j + 1);
    RestePareil(a, fd, bk, fd2, bk2, fb, ls, i);
    CutElems(s, j);
    RangeesAutour(a, b, ls, r, x, Bac(i));
  }

  /** Writing links of bin i only leaves every other list linked. */
  lemma RestePareil(a: Blocs, fd: Liens, bk: Liens, fd2: Liens, bk2: Liens, fb: seq<int>, ls: Listes, i: nat)
    requires Chaines(fd, bk, fb, ls) && Rangees(a, ls) && 1 <= i < NBINS
    requires forall x :: x > 0 && x in fd && Ou(a, x) != Utilise && Ou(a, x) != Bac(i) ==> x in fd2 && fd2[x] == fd[x]
    requires forall x :: x > 0 && x in bk && Ou(a, x) != Utilise && Ou(a, x) != Bac(i) ==> x in bk2 && bk2[x] == bk[x]
    requires forall k :: 1 <= k < NBINS && k != i && Entete(k) in fd ==>
      Entete(k) in fd2 && fd2[Entete(k)] == fd[Entete(k)]
    requires forall k :: 1 <= k < NBINS && k != i && Entete(k) in bk ==>
      Entete(k) in bk2 && bk2[Entete(k)] == bk[Entete(k)]
    ensures forall k {:trigger ls.bacs[k]} :: 1 <= k < NBINS && k != i ==> Boucle(fd2, bk2, ls.bacs[k], k)
    ensures forall k {:trigger ls.rapides[k]} :: 0 <= k < NFASTS ==> Pile(fd2, fb[k], ls.rapides[k])
  {
    hide Boucle, Pile;
    forall k | 1 <= k < NBINS && k != i ensures Boucle(fd2, bk2, ls.bacs[k], k) {
      assert Membres(a, Bac(k), ls.bacs[k]);
      AutreBoucle(fd, bk, fd2, bk2, ls.bacs[k], k);
    }
    forall k | 0 <= k < NFASTS ensures Pile(fd2, fb[k], ls.rapides[k]) {
      assert Membres(a, Rapide(k), ls.rapides[k]);
      AutrePile(fd, fd2, fb[k], ls.rapides[k]);
    }
  }

  /** Only the lists l of x before and after can change their members. */
  lemma RangeesAutour(a: Blocs, b: Blocs, ls: Listes, r: Listes, x: int, l: Lieu)
    requires Rangees(a, ls) && |r.bacs| == NBINS && |r.rapides| == NFASTS && r.bacs[0] == []
    requires forall q {:trigger Ou(b, q)} :: q != x ==> Ou(b, q) == Ou(a, q)
    requires (Ou(a, x) == l && Ou(b, x) == Utilise) || (Ou(a, x) == Utilise && Ou(b, x) == l)
    requires forall k {:trigger r.bacs[k]} :: 1 <= k < NBINS && Bac(k) != l ==> r.bacs[k] == ls.bacs[k]
    requires forall k {:trigger r.rapides[k]} :: 0 <= k < NFASTS && Rapide(k) != l ==> r.rapides[k] == ls.rapides[k]
    requires l.Bac? && 1 <= l.i < NBINS ==> Membres(b, l, r.bacs[l.i])
    requires l.Rapide? && l.i < NFASTS ==> Membres(b, l, r.rapides[l.i])
    ensures Rangees(b, r)
  {
    forall k | 1 <= k < NBINS ensures Membres(b, Bac(k), r.bacs[k]) {
      assert Membres(a, Bac(k), ls.bacs[k]);
    }
    forall k | 0 <= k < NFASTS ensures Membres(b, Rapide(k), r.rapides[k]) {
      assert Membres(a, Rapide(k), ls.rapides[k]);
    }
  }

  lemma InsererListes(a: Blocs, b: Blocs, fd: Liens, bk: Liens, fb: seq<int>, ls: Listes, i: nat, j: nat, x: int)
    requires Chaines(fd, bk, fb, ls) && Rangees(a, ls) && 1 <= i < NBINS && j <= |ls.bacs[i]|
    requires x > 0 && Ou(a, x) == Utilise && Bouge(a, b, x, Bac(i))
    ensures var k, f := Noeud(ls.bacs[i], i, j - 1), Noeud(ls.bacs[i], i, j);
      Chaines(fd[x := f][k := x], bk[x := k][f := x], fb, MetBac(ls, i, j, x))
    ensures Rangees(b, MetBac(ls, i, j, x))
  {
    hide Insert;
    var s := ls.bacs[i];
    assert Membres(a, Bac(i), s);
    InsererBoucle(fd, bk, s, i, j, x);
    var k, f := Noeud(s, i, j - 1), Noeud(s, i, j);
    NoeudCotes(s, i, j - 1);
    NoeudCotes(s, i, j);
    RestePareil(a, fd, bk, fd[x := f][k := x], bk[x := k][f := x], fb, ls, i);
    InsertElems(s, j, x);
    RangeesAutour(a, b, ls, MetBac(ls, i, j, x), x, Bac(i));
  }

  /** The unsorted bin, empty, gets the remainder of a split. */
  lemma SeulListes(a: Blocs, b: Blocs, fd: Liens, bk: Liens, fb: seq<int>, ls: Listes, x: int)
    requires Chaines(fd, bk, fb, ls) && Rangees(a, ls) && ls.bacs[1] == []
    requires x > 0 && Ou(a, x) == Utilise && Bouge(a, b, x, Bac(1))
    ensures var r := ls.(bacs := ls.bacs[1 := [x]]);
      Chaines(fd[Entete(1) := x][x := Entete(1)], bk[Entete(1) := x][x := Entete(1)], fb, r) && Rangees(b, r)
  {
    var fd2, bk2 := fd[Entete(1) := x][x := Entete(1)], bk[Entete(1) := x][x := Entete(1)];
    SeulBoucle(fd, bk, 1, x);
    RestePareil(a, fd, bk, fd2, bk2, fb, ls, 1);
    var r := ls.(bacs := ls.bacs[1 := [x]]);
    assert Membres(a, Bac(1), ls.bacs[1]);
    RangeesAutour(a, b, ls, r, x, Bac(1));
  }

  /** The unsorted bin, which held v alone, is reset to x: v need not be unlinked first. */
  lemma SeulAuLieuDe(a: Blocs, c: Blocs, b: Blocs, fd: Liens, bk: Liens, fb: seq<int>, ls: Listes, v: int, x: int)
    requires Chaines(fd, bk, fb, ls) && Rangees(a, ls) && |ls.bacs| == NBINS && ls.bacs[1] == [v]
    requires Bouge(a, c, v, Utilise) && x > 0 && Ou(c, x) == Utilise && Bouge(c, b, x, Bac(1))
    ensures var r := ls.(bacs := ls.bacs[1 := [x]]);
      Chaines(fd[Entete(1) := x][x := Entete(1)], bk[Entete(1) := x][x := Entete(1)], fb, r) && Rangees(b, r)
    ensures Rangees(c, RetireBac(ls, 1, 0)) && RetireBac(ls, 1, 0).bacs == ls.bacs[1 := []]
  {
    UnlinkListes(a, c, fd, bk, fb, ls, 1, 0);
    assert Boucle(fd, bk, ls.bacs[1], 1);
    assert Lien(fd, bk, ls.bacs[1], 1, 0) && Lien(fd, bk, ls.bacs[1], 1, 1);
    var e := Entete(1);
    assert fd[v] == e && bk[v] == e;
    var m := RetireBac(ls, 1, 0);
    assert m.bacs[1] == [];
    SeulListes(c, b, fd[e := e], bk[e := e], fb, m, x);
    assert fd[e := e][e := x][x := e] == fd[e := x][x := e];
    assert bk[e := e][e := x][x := e] == bk[e := x][x := e];
    assert m.bacs[1 := [x]] == ls.bacs[1 := [x]];
  }

  /** free: push on a fastbin. */
  lemma EmpilerListes(a: Blocs, b: Blocs, fd: Liens, bk: Liens, fb: seq<int>, ls: Listes, i: nat, x: int)
    requires Chaines(fd, bk, fb, ls) && Rangees(a, ls) && i < NFASTS
    requires x > 0 && Ou(a, x) == Utilise && Bouge(a, b, x, Rapide(i))
    ensures var r := ls.(rapides := ls.rapides[i := [x] + ls.rapides[i]]);
      Chaines(fd[x := fb[i]], bk, fb[i := x], r) && Rangees(b, r)
  {
    var s := ls.rapides[i];
    var t := [x] + s;
    var fd2 := fd[x := fb[i]];
    assert Membres(a, Rapide(i), s);
    AutresPareils(a, fd, fd2, bk, fb, ls, x);
    assert Pile(fd2, x, t) by {
      assert Pile(fd2, fb[i], s);
      forall k | 0 <= k < |t| ensures Fleche(fd2, t, k) {
        if k > 0 { assert Fleche(fd2, s, k - 1); }
      }
    }
    assert Membres(b, Rapide(i), t) by {
      forall m, n | 0 <= m && Lt(m, n) && n < |t| ensures t[m] != t[n] {
        if m > 0 { assert Lt(m - 1, n - 1); }
      }
    }
    RangeesAutour(a, b, ls, ls.(rapides := ls.rapides[i := t]), x, Rapide(i));
  }

  /** The head of a fastbin leaves it. */
  lemma DepilerListes(a: Blocs, b: Blocs, fd: Liens, bk: Liens, fb: seq<int>, ls: Listes, i: nat)
    requires Chaines(fd, bk, fb, ls) && Rangees(a, ls) && i < NFASTS && ls.rapides[i] != []
    requires Bouge(a, b, ls.rapides[i][0], Utilise)
    ensures fb[i] == ls.rapides[i][0] && fb[i] in fd
    ensures var r := ls.(rapides := ls.rapides[i := ls.rapides[i][1..]]);
      Chaines(fd, bk, fb[i := fd[fb[i]]], r) && Rangees(b, r)
  {
    var s := ls.rapides[i];
    var t := s[1..];
    assert Pile(fd, fb[i], s) && Fleche(fd, s, 0);
    assert Membres(a, Rapide(i), s);
    assert Pile(fd, fd[fb[i]], t) by {
      forall k | 0 <= k < |t| ensures Fleche(fd, t, k) {
        assert Fleche(fd, s, k + 1);
      }
    }
    assert Membres(b, Rapide(i), t) by {
      forall m, n | 0 <= m && Lt(m, n) && n < |t| ensures t[m] != t[n] {
        assert Lt(m + 1, n + 1);
      }
      forall q ensures q in t <==> Ou(b, q) == Rapide(i) {
        if q in t {
          var m := SlotOf(t, q);
          assert Lt(0, m + 1) && s[m + 1] == q;
        }
        assert q in s && q != s[0] ==> t[SlotOf(s, q) - 1] == q;
      }
    }
    RangeesAutour(a, b, ls, ls.(rapides := ls.rapides[i := t]), s[0], Rapide(i));
  }

  lemma AutresPareils(a: Blocs, fd: Liens, fd2: Liens, bk: Liens, fb: seq<int>, ls: Listes, x: int)
    requires Chaines(fd, bk, fb, ls) && Rangees(a, ls) && x > 0 && Ou(a, x) == Utilise
    requires forall y :: y in fd && y != x ==> y in fd2 && fd2[y] == fd[y]
    ensures Chaines(fd2, bk, fb, ls)
  {
    hide Boucle, Pile;
    forall k | 1 <= k < NBINS ensures Boucle(fd2, bk, ls.bacs[k], k) {
      assert Membres(a, Bac(k), ls.bacs[k]);
      AutreBoucle(fd, bk, fd2, bk, ls.bacs[k], k);
    }
    forall k | 0 <= k < NFASTS ensures Pile(fd2, fb[k], ls.rapides[k]) {
      assert Membres(a, Rapide(k), ls.rapides[k]);
      AutrePile(fd, fd2, fb[k], ls.rapides[k]);
    }
  }

  // ---- order and binmap

  /** From front to back, sizes do not grow. */
  ghost predicate Trie(a: Blocs, s: seq<int>) {
    forall m, n {:trigger Lt(m, n)} :: 0 <= m && Lt(m, n) && n < |s| ==>
      s[m] in a && s[n] in a && a[s[m]].taille >= a[s[n]].taille
  }

  /** Large bins are sorted; a clear bit of the binmap means an empty bin. */
  ghost predicate Ordonnes(a: Blocs, ls: Listes, carte: seq<bool>) {
    && |ls.bacs| == NBINS && |carte| == 128
    && (forall i {:trigger ls.bacs[i]} :: NSMALLBINS <= i < NBINS ==> Trie(a, ls.bacs[i]))
    && (forall i {:trigger ls.bacs[i]} :: 2 <= i < NBINS && !carte[i] ==> ls.bacs[i] == [])
    && (forall i :: NBINS <= i < 128 ==> !carte[i])
  }

  /** Chunks in lists keep their sizes from a to b. */
  ghost predicate MemesTailles(a: Blocs, b: Blocs) {
    forall q {:trigger Ou(a, q)} :: Ou(a, q) != Utilise ==> q in b && b[q].taille == a[q].taille
  }

  /** A change that touches neither the bins from 2 up nor the sizes in them. */
  lemma OrdreAutre(a: Blocs, b: Blocs, ls: Listes, r: Listes, carte: seq<bool>)
    requires Rangees(a, ls) && Ordonnes(a, ls, carte) && MemesTailles(a, b)
    requires |r.bacs| == NBINS && forall k {:trigger r.bacs[k]} :: 2 <= k < NBINS ==> r.bacs[k] == ls.bacs[k]
    ensures Ordonnes(b, r, carte)
  {
    forall k | NSMALLBINS <= k < NBINS ensures Trie(b, r.bacs[k]) {
      TrieGarde(a, b, ls, k);
    }
  }

  lemma TrieGarde(a: Blocs, b: Blocs, ls: Listes, k: nat)
    requires Rangees(a, ls) && MemesTailles(a, b) && 1 <= k < NBINS && Trie(a, ls.bacs[k])
    ensures Trie(b, ls.bacs[k])
  {
    var s := ls.bacs[k];
    assert Membres(a, Bac(k), s);
    forall m, n | 0 <= m && Lt(m, n) && n < |s|
      ensures s[m] in b && s[n] in b && b[s[m]].taille >= b[s[n]].taille
    {
      assert s[m] in s && s[n] in s;
      assert Ou(a, s[m]) == Ou(a, s[n]) == Bac(k);
    }
  }

  lemma OrdreRetire(a: Blocs, b: Blocs, ls: Listes, carte: seq<bool>, i: nat, j: nat)
    requires Rangees(a, ls) && Ordonnes(a, ls, carte) && MemesTailles(a, b)
    requires 1 <= i < NBINS && j < |ls.bacs[i]|
    ensures Ordonnes(b, RetireBac(ls, i, j), carte)
  {
    var r := RetireBac(ls, i, j);
    forall k | NSMALLBINS <= k < NBINS ensures Trie(b, r.bacs[k]) {
      TrieGarde(a, b, ls, k);
      if k == i {
        var s, t := ls.bacs[i], r.bacs[i];
        forall m, n | 0 <= m && Lt(m, n) && n < |t|
          ensures t[m] in b && t[n] in b && b[t[m]].taille >= b[t[n]].taille
        {
          assert Lt(if m < j then m else m + 1, if n < j then n else n + 1);
        }
      }
    }
    assert ls.bacs[i] != [];
  }

  /** x may go in slot j of the bin s: nothing before it is smaller, nothing after it larger. */
  ghost predicate BonRang(a: Blocs, s: seq<int>, j: nat, taille: int) {
    && j <= |s|
    && (forall m :: 0 <= m < j ==> s[m] in a && a[s[m]].taille >= taille)
    && (forall m :: j <= m < |s| ==> s[m] in a && a[s[m]].taille <= taille)
  }

  /** mark_bin and the insertion: the bins stay sorted. */
  lemma OrdreMet(a: Blocs, b: Blocs, ls: Listes, carte: seq<bool>, i: nat, j: nat, x: int)
    requires Rangees(a, ls) && Ordonnes(a, ls, carte) && MemesTailles(a, b)
    requires 2 <= i < NBINS && j <= |ls.bacs[i]| && x in b
    requires i >= NSMALLBINS ==> BonRang(a, ls.bacs[i], j, b[x].taille)
    ensures Ordonnes(b, MetBac(ls, i, j, x), carte[i := true])
  {
    var r := MetBac(ls, i, j, x);
    forall k | NSMALLBINS <= k < NBINS ensures Trie(b, r.bacs[k]) {
      TrieGarde(a, b, ls, k);
      if k == i {
        var s, t := ls.bacs[i], r.bacs[i];
        assert Membres(a, Bac(i), s);
        forall m, n | 0 <= m && Lt(m, n) && n < |t|
          ensures t[m] in b && t[n] in b && b[t[m]].taille >= b[t[n]].taille
        {
          var m2, n2 := if m < j then m else m - 1, if n < j then n else n - 1;
          if m != j && n != j {
            assert Lt(m2, n2);
          } else {
            var y := if m == j then t[n] else t[m];
            assert y in s && Ou(a, y) == Bac(i);
          }
        }
      }
    }
  }

  /** A bin noticed to be empty loses its bit. */
  lemma OrdreEfface(a: Blocs, ls: Listes, carte: seq<bool>, i: nat)
    requires Ordonnes(a, ls, carte) && i < NBINS && ls.bacs[i] == []
    ensures Ordonnes(a, ls, carte[i := false])
  {
  }

  /** What a header says of its bin. */
  lemma EnTete(fd: Liens, bk: Liens, fb: seq<int>, ls: Listes, i: nat)
    requires Chaines(fd, bk, fb, ls) && 1 <= i < NBINS
    ensures |ls.bacs| == NBINS && |ls.rapides| == |fb| == NFASTS
    ensures Entete(i) in fd && Entete(i) in bk
    ensures fd[Entete(i)] == Noeud(ls.bacs[i], i, 0) && bk[Entete(i)] == Noeud(ls.bacs[i], i, |ls.bacs[i]| - 1)
  {
    var s := ls.bacs[i];
    assert Lien(fd, bk, s, i, 0) && Lien(fd, bk, s, i, |s|);
  }

  /** What the two flags of max_fast promise: no chunk in any list, none in a fastbin. */
  ghost predicate Drapeaux(any: bool, fast: bool, ls: Listes) {
    && |ls.bacs| == NBINS && |ls.rapides| == NFASTS
    && (!any ==> forall i {:trigger ls.bacs[i]} :: 1 <= i < NBINS ==> ls.bacs[i] == [])
    && (!fast ==> forall i {:trigger ls.rapides[i]} :: 0 <= i < NFASTS ==> ls.rapides[i] == [])
    && (fast ==> any)
  }

  lemma DrapeauxBacs(any: bool, fast: bool, ls: Listes, r: Listes)
    requires Drapeaux(any, fast, ls) && any && r.rapides == ls.rapides && |r.bacs| == NBINS
    ensures Drapeaux(any, fast, r)
  {
  }

  /** A fastbin is empty exactly when its head is null. */
  lemma TeteDePile(a: Blocs, fd: Liens, bk: Liens, fb: seq<int>, ls: Listes, i: nat)
    requires Chaines(fd, bk, fb, ls) && Rangees(a, ls) && i < NFASTS
    ensures |fb| == |ls.rapides| == NFASTS
    ensures fb[i] == 0 <==> ls.rapides[i] == []
    ensures ls.rapides[i] != [] ==> fb[i] == ls.rapides[i][0] && fb[i] in a && a[fb[i]].lieu == Rapide(i)
  {
    var s := ls.rapides[i];
    assert Pile(fd, fb[i], s);
    assert Membres(a, Rapide(i), s);
    if s != [] { assert s[0] in s; }
  }

  lemma RapideBas(a: Blocs, base: int, top: int, ls: Listes, i: nat)
    requires Arene(a, base, top) && Rangees(a, ls) && i < NFASTS && ls.rapides[i] != []
    ensures i < 8
  {
    var s := ls.rapides[i];
    assert Membres(a, Rapide(i), s);
    assert s[0] in s;
    assert Place(a, base, top, s[0]);
  }

  /** Only the first eight fastbins are ever used. */
  lemma RapidesHauts(a: Blocs, base: int, top: int, ls: Listes)
    requires Arene(a, base, top) && Rangees(a, ls)
    ensures |ls.rapides| == NFASTS && forall i {:trigger ls.rapides[i]} :: 8 <= i < NFASTS ==> ls.rapides[i] == []
  {
    forall i | 8 <= i < NFASTS ensures ls.rapides[i] == [] {
      if ls.rapides[i] != [] { RapideBas(a, base, top, ls, i); }
    }
  }

  lemma DrapeauxRapide(any: bool, fast: bool, ls: Listes, i: nat, t: seq<int>)
    requires Drapeaux(any, fast, ls) && i < NFASTS
    ensures Drapeaux(true, true, ls.(rapides := ls.rapides[i := t])) && Drapeaux(true, fast, ls)
  {
  }

  // ---- malloc_init_state

  /** The first n - 1 bins are empty lists. */
  ghost predicate Vides(fd: Liens, bk: Liens, n: int) {
    forall k {:trigger Entete(k)} :: 1 <= k < n ==>
      Entete(k) in fd && fd[Entete(k)] == Entete(k) && Entete(k) in bk && bk[Entete(k)] == Entete(k)
  }

  function ListesVides(): Listes {
    Listes(seq(NBINS, i => []), seq(NFASTS, i => []))
  }

  lemma VidesListes(fd: Liens, bk: Liens, fb: seq<int>, carte: seq<bool>)
    requires Vides(fd, bk, NBINS) && fb == seq(NFASTS, i => 0) && carte == seq(128, i => false)
    ensures Chaines(fd, bk, fb, ListesVides())
    ensures Rangees(map[], ListesVides()) && Ordonnes(map[], ListesVides(), carte)
  {
    var ls := ListesVides();
    forall i | 1 <= i < NBINS ensures Boucle(fd, bk, ls.bacs[i], i) {
      assert Entete(i) in fd;
    }
  }

  // ---- what the bins say about sizes

  /** The chunks of a bin from 2 up have the sizes its index stands for. */
  lemma TaillesDuBac(a: Blocs, base: int, top: int, ls: Listes, i: nat, x: int)
    requires Arene(a, base, top) && Rangees(a, ls) && 1 <= i < NBINS && x in ls.bacs[i]
    ensures x in a && a[x].lieu == Bac(i) && a[x].taille >= MINSIZE && a[x].taille % 8 == 0
    ensures i >= 2 ==> BinIndex(a[x].taille) == i
  {
    assert Membres(a, Bac(i), ls.bacs[i]);
    assert Place(a, base, top, x);
  }

  /** A free chunk is in the bin of its size, unless it is still unsorted. */
  lemma DansSonBac(a: Blocs, base: int, top: int, ls: Listes, x: int)
    requires Arene(a, base, top) && Rangees(a, ls) && Libre(a, x)
    ensures |ls.bacs| == NBINS && 1 <= a[x].lieu.i < NBINS && x in ls.bacs[a[x].lieu.i] && a[x].taille >= MINSIZE
    ensures a[x].lieu.i >= 2 ==> a[x].lieu.i == BinIndex(a[x].taille)
  {
    assert Place(a, base, top, x);
    BinIndexBorne(a[x].taille);
    assert Membres(a, a[x].lieu, ls.bacs[a[x].lieu.i]);
  }

  /** Scanning the bins upwards from that of nb finds a smallest chunk that fits: the last one
      of the first bin that is not empty. */
  lemma PlusPetit(a: Blocs, base: int, top: int, ls: Listes, carte: seq<bool>, nb: int, i: nat)
    requires Arene(a, base, top) && Rangees(a, ls) && Ordonnes(a, ls, carte) && nb >= MINSIZE
    requires ls.bacs[1] == []
    requires BinIndex(nb) < i < NBINS && ls.bacs[i] != []
    requires 2 <= BinIndex(nb) && forall x :: x in ls.bacs[BinIndex(nb)] ==> x in a && a[x].taille < nb
    requires forall k {:trigger ls.bacs[k]} :: BinIndex(nb) < k < i ==> ls.bacs[k] == []
    ensures var v := ls.bacs[i][|ls.bacs[i]| - 1];
      && v in a && a[v].taille >= nb
      && forall q :: Libre(a, q) ==> a[q].taille < nb || a[q].taille >= a[v].taille
  {
    hide BinIndex, Arene;
    var s := ls.bacs[i];
    var v := s[|s| - 1];
    BinIndexBorne(nb);
    TaillesDuBac(a, base, top, ls, i, v);
    if a[v].taille < nb { BinIndexMonotone(a[v].taille, nb); }
    forall q | Libre(a, q) ensures a[q].taille < nb || a[q].taille >= a[v].taille {
      DansSonBac(a, base, top, ls, q);
      var k := a[q].lieu.i;
      TaillesDuBac(a, base, top, ls, k, q);
      if a[q].taille >= nb { BinIndexMonotone(nb, a[q].taille); }
      if a[q].taille <= a[v].taille { BinIndexMonotone(a[q].taille, a[v].taille); }
      if k == i {
        var m := SlotOf(s, q);
        if i >= NSMALLBINS {
          assert Lt(m, |s| - 1) || m == |s| - 1;
        } else {
          PetitBac(a[q].taille, a[v].taille);
        }
      }
    }
  }

  /** Scanning the bin of nb from its small end stops at a smallest chunk that fits. */
  lemma PlusPetitIci(a: Blocs, base: int, top: int, ls: Listes, carte: seq<bool>, nb: int, j: nat)
    requires Arene(a, base, top) && Rangees(a, ls) && Ordonnes(a, ls, carte) && nb >= MIN_LARGE_SIZE
    requires ls.bacs[1] == [] && 2 <= BinIndex(nb) < NBINS && j < |ls.bacs[BinIndex(nb)]|
    requires var s := ls.bacs[BinIndex(nb)];
      && s[j] in a && a[s[j]].taille >= nb
      && forall m :: j < m < |s| ==> s[m] in a && a[s[m]].taille < nb
    ensures var v := ls.bacs[BinIndex(nb)][j];
      forall q :: Libre(a, q) ==> a[q].taille < nb || a[q].taille >= a[v].taille
  {
    hide BinIndex, Arene;
    BinIndexBorne(nb);
    var i := BinIndex(nb);
    var s := ls.bacs[i];
    var v := s[j];
    assert v in s && Trie(a, s);
    TaillesDuBac(a, base, top, ls, i, v);
    forall q | Libre(a, q) ensures a[q].taille < nb || a[q].taille >= a[v].taille {
      DansSonBac(a, base, top, ls, q);
      var k := a[q].lieu.i;
      TaillesDuBac(a, base, top, ls, k, q);
      if a[q].taille >= nb { BinIndexMonotone(nb, a[q].taille); }
      if a[q].taille <= a[v].taille { BinIndexMonotone(a[q].taille, a[v].taille); }
      if k == i {
        var m := SlotOf(s, q);
        assert Lt(m, j) || m == j || Lt(j, m);
      }
    }
  }

  /** When every bin above that of nb is empty and that one holds nothing large enough, no chunk
      fits. */
  lemma RienNeVa(a: Blocs, base: int, top: int, ls: Listes, nb: int)
    requires Arene(a, base, top) && Rangees(a, ls) && nb >= MINSIZE && ls.bacs[1] == []
    requires 2 <= BinIndex(nb) < NBINS
    requires forall x :: x in ls.bacs[BinIndex(nb)] ==> x in a && a[x].taille < nb
    requires forall k {:trigger ls.bacs[k]} :: BinIndex(nb) < k < NBINS ==> ls.bacs[k] == []
    ensures forall q :: Libre(a, q) ==> a[q].taille < nb
  {
    hide BinIndex, Arene;
    forall q | Libre(a, q) ensures a[q].taille < nb {
      DansSonBac(a, base, top, ls, q);
      TaillesDuBac(a, base, top, ls, a[q].lieu.i, q);
      if a[q].taille >= nb { BinIndexMonotone(nb, a[q].taille); }
    }
  }

  lemma TrieDuBac(a: Blocs, ls: Listes, carte: seq<bool>, i: nat)
    requires Ordonnes(a, ls, carte) && NSMALLBINS <= i < NBINS
    ensures |ls.bacs| == NBINS && Trie(a, ls.bacs[i])
  {
  }

  lemma LongueurCarte(a: Blocs, ls: Listes, carte: seq<bool>)
    requires Ordonnes(a, ls, carte)
    ensures |carte| == 128 && |ls.bacs| == NBINS
    ensures forall i {:trigger carte[i]} :: NBINS <= i < 128 ==> !carte[i]
  {
  }

  /** The n-th chunk of a bin. */
  lemma DuBac(a: Blocs, base: int, top: int, ls: Listes, i: nat, n: nat)
    requires Arene(a, base, top) && Rangees(a, ls) && 1 <= i < NBINS && |ls.bacs| == NBINS && n < |ls.bacs[i]|
    ensures var x := ls.bacs[i][n];
      x in a && a[x].lieu == Bac(i) && x > 0 && a[x].taille >= MINSIZE && a[x].taille % 8 == 0
    ensures i >= 2 ==> BinIndex(a[ls.bacs[i][n]].taille) == i
  {
    var x := ls.bacs[i][n];
    assert x in ls.bacs[i];
    TaillesDuBac(a, base, top, ls, i, x);
    PasTop(a, base, top, x);
  }

  lemma DansSaPile(a: Blocs, base: int, top: int, ls: Listes, x: int)
    requires Arene(a, base, top) && Rangees(a, ls) && x in a && a[x].lieu.Rapide?
    ensures |ls.rapides| == NFASTS && a[x].lieu.i < 8 && x in ls.rapides[a[x].lieu.i]
  {
    assert Place(a, base, top, x);
    assert Membres(a, a[x].lieu, ls.rapides[a[x].lieu.i]);
    assert Ou(a, x) == a[x].lieu;
  }

  /** The flags at work: without any chunk in a list, nothing is free. */
  lemma SansLibre(a: Blocs, base: int, top: int, ls: Listes, any: bool, fast: bool)
    requires Arene(a, base, top) && Rangees(a, ls) && Drapeaux(any, fast, ls)
    ensures !any ==> forall q :: !Libre(a, q)
    ensures !fast ==> forall q :: q in a ==> !a[q].lieu.Rapide?
  {
    if !any {
      forall q ensures !Libre(a, q) {
        if Libre(a, q) { DansSonBac(a, base, top, ls, q); }
      }
    }
    if !fast {
      forall q | q in a ensures !a[q].lieu.Rapide? {
        if a[q].lieu.Rapide? { DansSaPile(a, base, top, ls, q); }
      }
    }
  }
}
