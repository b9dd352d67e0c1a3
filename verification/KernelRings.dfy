/** The rings of the kernel in memory: every process has one link, which several list heads share.
    The three operations of shared/queue.h on those links do what QueueAdd and QueueDel say of the
    kernel state, where a ring is a list of pids and the link of a process the name of its ring. */
module KernelRings {
  import opened PriorityQueue
  import opened KernelState
  import opened KernelMoves
  import opened KernelSched
  import opened Ring

  /** Every process of the list has a link. */
  ghost predicate Connus(lien: map<int, Link>, q: seq<int>) {
    forall i :: 0 <= i < |q| ==> q[i] in lien
  }

  ghost function Images(lien: map<int, Link>, q: seq<int>): (l: seq<Link>)
    requires Connus(lien, q)
    ensures |l| == |q| && forall i {:trigger l[i]} :: 0 <= i < |q| ==> l[i] == lien[q[i]]
  {
    seq(|q|, i requires 0 <= i < |q| => lien[q[i]])
  }

  /** No two processes have the same link. */
  ghost predicate Injectif(lien: map<int, Link>) {
    forall p, x :: p in lien && x in lien && lien[p] == lien[x] ==> p == x
  }

  lemma ImagesInsert(lien: map<int, Link>, q: seq<int>, k: nat, p: int)
    requires k <= |q| && p in lien && Connus(lien, q)
    ensures Connus(lien, Insert(q, k, p))
    ensures Images(lien, Insert(q, k, p)) == Insert(Images(lien, q), k, lien[p])
  {
    InsertElems(q, k, p);
  }

  lemma ImagesWithout(lien: map<int, Link>, q: seq<int>, p: int)
    requires Injectif(lien) && NoDup(q) && p in q && Connus(lien, q)
    ensures Connus(lien, Without(q, p)) && p in lien
    ensures lien[p] in Images(lien, q) && Images(lien, Without(q, p)) == Without(Images(lien, q), lien[p])
  {
    WithoutElems(q, p);
    var k, l := SlotOf(q, p), Images(lien, q);
    assert l[k] == lien[p];
    assert SlotOf(l, lien[p]) == k by {
      var j := SlotOf(l, lien[p]);
      assert q[j] == p;
    }
  }

  /** The priority fields of a process, and the number of each. */
  function Champs(p: Processus): seq<int> {
    [p.prio, p.secReveille, 0]
  }

  function Numero(c: Champ): nat {
    match c
    case Prio => 0
    case SecReveille => 1
    case Place => 2
  }

  lemma ImagesCles(lien: map<int, Link>, procs: map<int, Processus>, c: Champ, q: seq<int>)
    requires Connus(lien, q) && forall i :: 0 <= i < |q| ==> q[i] in procs && lien[q[i]].keys == Champs(procs[q[i]])
    ensures KeysOf(Images(lien, q), Numero(c)) == Cles(procs, c, q)
  {
  }

  class Memoire {
    const lien: map<int, Link>
    const tetes: map<Anneau, Queue>

    /** At boot every list head is initialised and no process is linked. */
    constructor (ghost s: Noyau, ghost tous: set<Link>, lien: map<int, Link>, tetes: map<Anneau, Queue>)
      requires Injectif(lien) && (forall p :: p in s.procs ==> p in lien)
      requires forall p :: p in lien ==> lien[p] in tous && lien[p].prev == null && lien[p].next == null
      requires forall p :: p in s.procs && p in lien ==> lien[p].keys == Champs(s.procs[p])
      requires forall r, t :: r in tetes && t in tetes && tetes[r] == tetes[t] ==> r == t
      requires Separate(tous, tetes.Values) && forall r :: r in tetes ==> tetes[r].Elems == [] && Chaine(s, r) == []
      ensures this.lien == lien && this.tetes == tetes && Tient(s, tous)
    {
      this.lien, this.tetes := lien, tetes;
    }

    function Tete(r: Anneau): Queue
      requires r in tetes
    {
      tetes[r]
    }

    function Lien(p: int): Link
      requires p in lien
    {
      lien[p]
    }

    /** Ring `r` goes through the links of the processes it holds, in order. */
    ghost predicate Montre(s: Noyau, r: Anneau)
      requires r in tetes
      reads tetes[r]
    {
      Connus(lien, Chaine(s, r)) && tetes[r].Elems == Images(lien, Chaine(s, r))
    }

    /** The links in memory are those of state `s`: the rings, their members in order, null links
        for whoever is in none, and the priority fields of every process. */
    ghost predicate Tient(s: Noyau, tous: set<Link>)
      reads tetes.Values, tous
    {
      && Injectif(lien) && (forall p :: p in s.procs ==> p in lien) && (forall p :: p in lien ==> lien[p] in tous)
      && (forall r, t :: r in tetes && t in tetes && tetes[r] == tetes[t] ==> r == t)
      && Separate(tous, tetes.Values)
      && (forall r :: r in tetes ==> Montre(s, r))
      && (forall p :: p in lien && SansAnneau(s, p) ==> lien[p].prev == null && lien[p].next == null)
      && forall p :: p in s.procs ==> lien[p].keys == Champs(s.procs[p])
    }

    /** queue_add, with the field that orders the ring. */
    method Ajouter(ghost s: Noyau, ghost tous: set<Link>, p: int, r: Anneau)
      requires Tient(s, tous) && Chainages(s) && p in s.procs && s.procs[p].chainage == Libre && r in tetes
      modifies Tete(r)`Elems, Tete(r).head`prev, Tete(r).head`next, Tete(r).Elems`prev, Tete(r).Elems`next
      modifies Lien(p)`prev, Lien(p)`next
      ensures Tient(QueueAdd(s, r, p), tous)
    {
      hide Separate, Images, QueueAdd, Chaine, Insert, Position, KeysOf, Cles, Chainages;
      ghost var q := Chaine(s, r);
      ghost var s' := QueueAdd(s, r, p);
      ghost var k := Rang(s.procs, r, q, s.procs[p]);
      AjoutEffet(s, r, p);
      DansTable(s, r);
      assert Montre(s, r);
      ImagesCles(lien, s.procs, ChampDe(r), q);
      ImagesInsert(lien, q, k, p);
      LibresHors(s, tous, r);
      AddTo(tous, tetes.Values, Tete(r), Lien(p), Numero(ChampDe(r)));
      assert Montre(s', r);
      forall t | t in tetes && t != r ensures Montre(s', t) {
        assert old(Montre(s, t));
        assert tetes[t].Elems == old(tetes[t].Elems);
      }
    }

    /** queue_del */
    method Oter(ghost s: Noyau, ghost tous: set<Link>, p: int, r: Anneau)
      requires Tient(s, tous) && Chainages(s) && p in s.procs && s.procs[p].chainage == Dans(r) && r in tetes
      modifies Tete(r)`Elems, Tete(r).head`prev, Tete(r).head`next, Tete(r).Elems`prev, Tete(r).Elems`next
      ensures Tient(QueueDel(s, p), tous)
    {
      hide Separate, Images, QueueDel, Chaine, Without, NoDup;
      ghost var q := Chaine(s, r);
      ghost var s' := QueueDel(s, p);
      RetraitEffet(s, r, p);
      assert Montre(s, r);
      ImagesWithout(lien, q, p);
      LibresHors(s, tous, r);
      DelFrom(tous, tetes.Values, Tete(r), Lien(p));
      assert Montre(s', r);
      forall t | t in tetes && t != r ensures Montre(s', t) {
        assert old(Montre(s, t));
        assert tetes[t].Elems == old(tetes[t].Elems);
      }
    }

    /** queue_out */
    method Sortir(ghost s: Noyau, ghost tous: set<Link>, r: Anneau) returns (e: Link?)
      requires Tient(s, tous) && Chainages(s) && r in tetes
      modifies Tete(r)`Elems, Tete(r).head`prev, Tete(r).head`next, Tete(r).Elems`prev, Tete(r).Elems`next
      ensures var q := Chaine(s, r);
        if q == [] then e == null && Tient(s, tous)
        else q[0] in s.procs && q[0] in lien && e == lien[q[0]] && Tient(QueueDel(s, q[0]), tous)
    {
      hide Separate, Images, QueueDel, Chaine, Without, NoDup;
      ghost var q := Chaine(s, r);
      assert Montre(s, r);
      LibresHors(s, tous, r);
      ghost var s' := if q == [] then s else (PremierDe(s, r); QueueDel(s, q[0]));
      if q != [] {
        RetraitEffet(s, r, q[0]);
        WithoutHead(q);
        ImagesWithout(lien, q, q[0]);
      }
      e := OutOf(tous, tetes.Values, Tete(r));
      assert Montre(s', r);
      forall t | t in tetes && t != r ensures Montre(s', t) {
        assert old(Montre(s, t));
        assert tetes[t].Elems == old(tetes[t].Elems);
      }
    }

    /** Writing fields of a process, a new one included, other than its link. */
    method Ecrire(ghost s: Noyau, ghost tous: set<Link>, p: int, rec: Processus)
      requires Tient(s, tous) && p in lien
      requires rec.chainage == if p in s.procs then s.procs[p].chainage else Libre
      modifies Lien(p)`keys
      ensures Tient(Maj(s, p, rec), tous)
    {
      Lien(p).keys := Champs(rec);
      forall r | r in tetes ensures Montre(Maj(s, p, rec), r) {
        assert old(Montre(s, r));
      }
    }

    /** queue_del, writing the fields, queue_add: a process goes from one ring to another, which may
        be ordered by another field. */
    method Deplacer(ghost s: Noyau, ghost tous: set<Link>, p: int, rec: Processus, avant: Chainage, r: Anneau)
      requires Tient(s, tous) && Chainages(s) && p in s.procs && s.procs[p].chainage == avant
      requires r in tetes && (avant.Dans? ==> avant.anneau in tetes)
      modifies tetes.Values, tous
      ensures Tient(KernelState.Deplacer(s, p, rec, r), tous)
    {
      hide Tient, Chainages, QueueAdd, KernelState.Detacher, KernelState.Deplacer;
      DetacherLie(s, p, rec, r);
      Detacher(s, tous, p, rec, avant);
      ghost var s' := KernelState.Detacher(s, p, rec);
      Portee(s', tous, r);
      Ajouter(s', tous, p, r);
    }

    method Detacher(ghost s: Noyau, ghost tous: set<Link>, p: int, rec: Processus, avant: Chainage)
      requires Tient(s, tous) && Chainages(s) && p in s.procs && s.procs[p].chainage == avant
      requires avant.Dans? ==> avant.anneau in tetes
      modifies tetes.Values, tous
      ensures Tient(KernelState.Detacher(s, p, rec), tous)
    {
      hide Tient, Chainages, Chaine, Without;
      Connu(s, tous, p);
      if avant.Dans? {
        Portee(s, tous, avant.anneau);
        Oter(s, tous, p, avant.anneau);
      }
      Ecrire(QueueDel(s, p), tous, p, rec.(chainage := Libre));
    }

    /** What the operations on ring `r` may write. */
    lemma Portee(s: Noyau, tous: set<Link>, r: Anneau)
      requires Tient(s, tous) && r in tetes
      ensures Tete(r) in tetes.Values && Tete(r).head in tous && forall l :: l in Tete(r).Elems ==> l in tous
      ensures forall p :: p in s.procs ==> p in lien && Lien(p) in tous
    {
      assert Among(tous, Tete(r));
    }

    lemma Connu(s: Noyau, tous: set<Link>, p: int)
      requires Tient(s, tous) && p in s.procs
      ensures p in lien && Lien(p) in tous
    {
    }

    /** The other changes of state, such as freeing a process that is in no ring, do not touch the
        links. */
    lemma Inchange(s: Noyau, s': Noyau, tous: set<Link>)
      requires Tient(s, tous) && s'.anneaux == s.anneaux
      requires forall p :: p in s'.procs ==> p in s.procs && s'.procs[p].chainage == s.procs[p].chainage
                                             && Champs(s'.procs[p]) == Champs(s.procs[p])
      requires forall p :: p in s.procs && p !in s'.procs ==> s.procs[p].chainage == Libre
      ensures Tient(s', tous)
    {
      forall r | r in tetes ensures Montre(s', r) {
        assert Montre(s, r);
      }
    }

    /** A process that is in no ring is not reached by any of them. */
    lemma LibresHors(s: Noyau, tous: set<Link>, r: Anneau)
      requires Tient(s, tous) && r in tetes
      ensures forall x :: x in lien && SansAnneau(s, x) ==> lien[x] != Tete(r).head && lien[x] !in Tete(r).Elems
    {
      hide Separate, Montre;
      forall x | x in lien && SansAnneau(s, x) ensures lien[x] != Tete(r).head && lien[x] !in Tete(r).Elems {
        NullIsNowhere(tous, tetes.Values, lien[x]);
      }
    }
  }

  /** A process that is in no ring, or none at all. */
  predicate SansAnneau(s: Noyau, p: int) {
    p in s.procs ==> s.procs[p].chainage == Libre
  }

  lemma DansTable(s: Noyau, r: Anneau)
    requires Chainages(s)
    ensures forall i :: 0 <= i < |Chaine(s, r)| ==> Chaine(s, r)[i] in s.procs
  {
    forall i | 0 <= i < |Chaine(s, r)| ensures Chaine(s, r)[i] in s.procs {
      var x := Chaine(s, r)[i];
      assert x in Chaine(s, r);
    }
  }

  lemma DetacherLie(s: Noyau, p: int, rec: Processus, r: Anneau)
    requires Chainages(s) && p in s.procs
    ensures var s' := KernelState.Detacher(s, p, rec);
      && Chainages(s') && p in s'.procs && s'.procs[p].chainage == Libre
      && KernelState.Deplacer(s, p, rec, r) == QueueAdd(s', r, p)
  {
    hide Chainages, QueueAdd, QueueDel;
    DetacherEffet(s, p, rec);
    DetacherChainages(s, p, rec);
  }

  lemma AjoutEffet(s: Noyau, r: Anneau, p: int)
    requires p in s.procs
    ensures var s' := QueueAdd(s, r, p);
      && Chaine(s', r) == Insert(Chaine(s, r), Rang(s.procs, r, Chaine(s, r), s.procs[p]), p)
      && (forall t :: t != r ==> Chaine(s', t) == Chaine(s, t))
      && s'.procs.Keys == s.procs.Keys && s'.procs[p] == s.procs[p].(chainage := Dans(r))
      && forall x :: x in s.procs && x != p ==> s'.procs[x] == s.procs[x]
  {
  }

  lemma RetraitEffet(s: Noyau, r: Anneau, p: int)
    requires Chainages(s) && p in s.procs && s.procs[p].chainage == Dans(r)
    ensures p in Chaine(s, r) && NoDup(Chaine(s, r))
    ensures var s' := QueueDel(s, p);
      && Chaine(s', r) == Without(Chaine(s, r), p)
      && (forall t :: t != r ==> Chaine(s', t) == Chaine(s, t))
      && s'.procs.Keys == s.procs.Keys && s'.procs[p] == s.procs[p].(chainage := Libre)
      && forall x :: x in s.procs && x != p ==> s'.procs[x] == s.procs[x]
  {
  }

  lemma PremierDe(s: Noyau, r: Anneau)
    requires Chainages(s) && Chaine(s, r) != []
    ensures var p := Chaine(s, r)[0]; p in s.procs && s.procs[p].chainage == Dans(r)
  {
    assert Chaine(s, r)[0] in Chaine(s, r);
  }
}
