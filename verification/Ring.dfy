/** shared/queue.h on the heap: the circular doubly linked ring whose links are embedded in
    the elements, proved to be the priority queue of module PriorityQueue. */
module Ring {
  import opened PriorityQueue

  /** An element of a queue: its embedded `link` and its fields, one of which orders the queue. */
  class Link {
    var prev: Link?
    var next: Link?
    var keys: seq<int>

    constructor (keys: seq<int>)
      ensures prev == null && next == null && this.keys == keys
    {
      prev, next := null, null;
      this.keys := keys;
    }

    /** The field that the calls name. */
    function Key(field: nat): int
      reads `keys
    {
      if field < |keys| then keys[field] else 0
    }
  }

  /** Slots -1 and |q| of the queue are both the list head. */
  ghost function At(head: Link, q: seq<Link>, i: int): Link {
    if 0 <= i < |q| then q[i] else head
  }

  /** Slots i - 1 and i are linked both ways: `prev` goes forward in the order of queue_out. */
  ghost predicate Joined(head: Link, q: seq<Link>, i: int)
    reads head`prev, head`next, q`prev, q`next
  {
    At(head, q, i - 1).prev == At(head, q, i) && At(head, q, i).next == At(head, q, i - 1)
  }

  /** The circular list through the head visits exactly the queue. */
  ghost predicate Linked(head: Link, q: seq<Link>)
    reads head`prev, head`next, q`prev, q`next
  {
    forall i {:trigger Joined(head, q, i)} :: 0 <= i <= |q| ==> Joined(head, q, i)
  }

  ghost predicate Distinct(head: Link, q: seq<Link>) {
    NoDup(q) && head !in q
  }

  lemma SlotsDiffer(head: Link, q: seq<Link>, i: int, j: int)
    requires Distinct(head, q) && -1 <= i < j <= |q| && (i >= 0 || j < |q|)
    ensures At(head, q, i) != At(head, q, j)
  {
    assert Lt(i, j);
    assert i >= 0 ==> q[i] in q;
    assert j < |q| ==> q[j] in q;
  }

  /** The two links of the head. */
  lemma Ends(head: Link, q: seq<Link>)
    requires Distinct(head, q) && Linked(head, q)
    ensures head.prev == At(head, q, 0) && head.next == At(head, q, |q| - 1)
    ensures head.next == head <==> q == []
  {
    assert Joined(head, q, 0) && Joined(head, q, |q|);
    if q != [] { assert q[|q| - 1] in q; }
  }

  ghost function KeysOf(q: seq<Link>, field: nat): (r: seq<int>)
    reads q
    ensures |r| == |q| && forall i :: 0 <= i < |r| ==> r[i] == q[i].Key(field)
  {
    seq(|q|, i requires 0 <= i < |q| reads q => q[i].Key(field))
  }

  /** The four writes of queue_add, linking `e` just before `cur` in the C ring. */
  method Splice(e: Link, cur: Link)
    requires cur.prev != null && cur != e && cur.prev != e
    modifies e`prev, e`next, cur`prev, cur.prev`next
    ensures e.next == cur && e.prev == old(cur.prev)
    ensures cur.prev == e && old(cur.prev).next == e
    ensures old(cur.prev) != cur ==> cur.next == old(cur.next) && old(cur.prev).prev == old(cur.prev.prev)
  {
    e.next := cur;
    e.prev := cur.prev;
    cur.prev.next := e;
    cur.prev := e;
  }

  /** What those writes do to a whole ring. */
  method SpliceAt(head: Link, ghost q: seq<Link>, ghost k: int, e: Link, cur: Link)
    requires Distinct(head, q) && Linked(head, q)
    requires 0 <= k <= |q| && cur == At(head, q, k - 1)
    requires e != head && e !in q
    modifies head`prev, head`next, q`prev, q`next, e`prev, e`next
    ensures Distinct(head, Insert(q, k, e)) && Linked(head, Insert(q, k, e))
  {
    assert Joined(head, q, k);
    assert At(head, q, k) != e && cur != e;
    Splice(e, cur);
    ghost var r := Insert(q, k, e);
    InsertElems(q, k, e);
    forall i | 0 <= i <= |r| ensures Joined(head, r, i) {
      if i < k {
        assert old(Joined(head, q, i));
        SlotsDiffer(head, q, i - 1, k - 1);
        SlotsDiffer(head, q, i, k);
      } else if i > k + 1 {
        assert old(Joined(head, q, i - 1));
        SlotsDiffer(head, q, k - 1, i - 2);
        SlotsDiffer(head, q, k, i - 1);
      }
    }
  }

  /** The four writes of queue_del. */
  method Unsplice(e: Link)
    requires e.prev != null && e.next != null && e.prev != e && e.next != e
    modifies e`prev, e`next, e.prev`next, e.next`prev
    ensures e.prev == null && e.next == null
    ensures old(e.prev).next == old(e.next) && old(e.next).prev == old(e.prev)
  {
    e.prev.next := e.next;
    e.next.prev := e.prev;
    e.next := null;
    e.prev := null;
  }

  method UnspliceAt(head: Link, ghost q: seq<Link>, ghost k: int, e: Link)
    requires Distinct(head, q) && Linked(head, q)
    requires 0 <= k < |q| && e == q[k]
    modifies head`prev, head`next, q`prev, q`next
    ensures Distinct(head, Cut(q, k)) && Linked(head, Cut(q, k))
    ensures e.prev == null && e.next == null
  {
    assert Joined(head, q, k) && Joined(head, q, k + 1);
    SlotsDiffer(head, q, k - 1, k);
    SlotsDiffer(head, q, k, k + 1);
    Unsplice(e);
    ghost var r := Cut(q, k);
    CutElems(q, k);
    forall i | 0 <= i <= |r| ensures Joined(head, r, i) {
      if i < k {
        assert old(Joined(head, q, i));
        SlotsDiffer(head, q, i - 1, k - 1);
        SlotsDiffer(head, q, i, k + 1);
        SlotsDiffer(head, q, i - 1, k);
        SlotsDiffer(head, q, i, k);
      } else if i > k {
        assert old(Joined(head, q, i + 1));
        SlotsDiffer(head, q, k - 1, i);
        SlotsDiffer(head, q, k + 1, i + 1);
        SlotsDiffer(head, q, k, i);
        SlotsDiffer(head, q, k, i + 1);
      }
    }
  }

  class Queue {
    const head: Link

    /** The elements in the order in which QueueOut would return them. */
    ghost var Elems: seq<Link>

    ghost predicate Valid()
      reads this, head`prev, head`next, Elems`prev, Elems`next
    {
      Distinct(head, Elems) && Linked(head, Elems)
    }

    /** INIT_LIST_HEAD */
    constructor ()
      ensures Valid() && Elems == [] && fresh(head)
    {
      var h := new Link([]);
      h.prev, h.next := h, h;
      head := h;
      Elems := [];
    }

    /** The search loop of queue_add. */
    method FindSlot(e: Link, field: nat) returns (cur: Link, ghost k: nat)
      requires Valid()
      ensures k == Position(KeysOf(Elems, field), e.Key(field)) && cur == At(head, Elems, k - 1)
    {
      Ends(head, Elems);
      cur := head.next;
      ghost var i := |Elems| - 1;
      while cur != head && cur.Key(field) < e.Key(field)
        invariant -1 <= i < |Elems| && cur == At(head, Elems, i)
        invariant forall j :: i < j < |Elems| ==> Elems[j].Key(field) < e.Key(field)
        decreases i
      {
        assert Joined(head, Elems, i);
        cur := cur.next;
        i := i - 1;
      }
      k := i + 1;
      PositionUnique(KeysOf(Elems, field), e.Key(field), k);
    }

    /** queue_add: the two link fields must be null on entry (the macro asserts it). */
    method QueueAdd(e: Link, field: nat)
      requires Valid()
      requires e != head && e !in Elems
      requires e.prev == null && e.next == null
      modifies this`Elems, head`prev, head`next, Elems`prev, Elems`next, e`prev, e`next
      ensures Valid()
      ensures Elems == Insert(old(Elems), Position(old(KeysOf(Elems, field)), e.Key(field)), e)
    {
      hide Insert, Position;
      ghost var q := Elems;
      var cur, k := FindSlot(e, field);
      assert k == Position(old(KeysOf(Elems, field)), e.Key(field));
      SpliceAt(head, q, k, e, cur);
      ghost var r := Insert(q, k, e);
      Elems := r;
    }

    /** queue_out: null when the queue is empty, else the element just before the head. */
    method QueueOut() returns (r: Link?)
      requires Valid()
      modifies this`Elems, head`prev, head`next, Elems`prev, Elems`next
      ensures Valid()
      ensures old(Elems) == [] ==> r == null && Elems == []
      ensures old(Elems) != [] ==> r == old(Elems)[0] && Elems == old(Elems)[1..]
      ensures r != null ==> r.prev == null && r.next == null
    {
      Ends(head, Elems);
      r := head.prev;
      if head.next == head {
        return null;
      }
      assert Joined(head, Elems, 0) && Joined(head, Elems, 1);
      SlotsDiffer(head, Elems, 0, 1);
      SlotsDiffer(head, Elems, -1, 0);
      head.prev := head.prev.prev;
      head.prev.next := head;
      r.prev := null;
      r.next := null;
      ghost var q := Elems;
      Elems := Elems[1..];
      CutElems(q, 0);
      assert Elems == Cut(q, 0);
      forall i | 1 <= i <= |Elems| ensures Joined(head, Elems, i) {
        assert old(Joined(head, q, i + 1));
        SlotsDiffer(head, q, -1, i);
        SlotsDiffer(head, q, 0, i);
        SlotsDiffer(head, q, 0, i + 1);
        SlotsDiffer(head, q, 1, i + 1);
      }
    }

    /** queue_top: like QueueOut, but the queue is left alone. */
    method QueueTop() returns (r: Link?)
      requires Valid()
      ensures Elems == [] ==> r == null
      ensures Elems != [] ==> r == Elems[0]
    {
      Ends(head, Elems);
      if head.next == head {
        return null;
      }
      r := head.prev;
    }

    /** queue_del: the element must be linked; it is closed up and its links are zeroed. */
    method QueueDel(e: Link)
      requires Valid()
      requires e in Elems
      modifies this`Elems, head`prev, head`next, Elems`prev, Elems`next
      ensures Valid()
      ensures Elems == Without(old(Elems), e)
      ensures e.prev == null && e.next == null
    {
      ghost var k: int := SlotOf(Elems, e);
      UnspliceAt(head, Elems, k, e);
      Elems := Cut(Elems, k);
    }

    /** queue_del of the element next to the head on the far side. */
    method DeleteLast(e: Link)
      requires Valid() && Elems != [] && e == Elems[|Elems|-1]
      modifies this`Elems, head`prev, head`next, Elems`prev, Elems`next
      ensures Valid() && Elems == old(Elems)[..|old(Elems)|-1]
      ensures e.prev == null && e.next == null
    {
      assert SlotOf(Elems, e) == |Elems| - 1 by {
        assert Lt(SlotOf(Elems, e), |Elems| - 1) || SlotOf(Elems, e) == |Elems| - 1;
      }
      QueueDel(e);
    }

    /** The loop of verifie_reveille (kernel/processus.c:437-453): walk the ring from
        `head->next`, deleting each element under the cursor.  The cursor is saved as the
        PREVIOUS link before the deletion and advanced by the loop header afterwards, so it
        always lands on the new `head->next`.  PriorityQueue.PrefixIsFilter says what the
        split point means when the queue is sorted. */
    method DrainUpTo(limit: int, field: nat) returns (out: seq<Link>)
      requires Valid()
      modifies this`Elems, head`prev, head`next, Elems`prev, Elems`next
      ensures Valid() && Elems <= old(Elems) && |Elems| + |out| == |old(Elems)|
      ensures forall i :: 0 <= i < |out| ==> out[i] == old(Elems)[|old(Elems)| - 1 - i] && out[i].Key(field) <= limit
      ensures Elems != [] ==> Elems[|Elems|-1].Key(field) > limit
    {
      out := [];
      Ends(head, Elems);
      var current: Link := head.next;
      ghost var was := Elems;
      while current != head
        invariant Valid() && Elems <= was && |Elems| + |out| == |was|
        invariant current == head.next
        invariant forall i :: 0 <= i < |out| ==> out[i] == was[|was| - 1 - i] && out[i].Key(field) <= limit
        decreases |Elems|
      {
        Ends(head, Elems);
        assert Joined(head, Elems, |Elems|);
        var saved: Link := current.prev;
        if current.Key(field) > limit {
          break;
        }
        DeleteLast(current);
        out := Insert(out, |out|, current);
        Ends(head, Elems);
        current := saved;
        current := current.next;
      }
      Ends(head, Elems);
    }
  }

  // ----- Several rings over elements that share one link ------------------------------------------

  /** Two rings that do not meet. */
  ghost predicate Apart(p: Queue, q: Queue)
    reads p, q
  {
    p.head != q.head && p.head !in q.Elems && q.head !in p.Elems && forall l :: l in p.Elems ==> l !in q.Elems
  }

  /** A well-linked ring made of links in `all`. */
  ghost predicate Among(all: set<Link>, q: Queue)
    reads q, all`prev, all`next
  {
    q.head in all && (forall l :: l in q.Elems ==> l in all) && q.Valid()
  }

  /** Several rings, no two of which meet. */
  ghost predicate Separate(all: set<Link>, qs: set<Queue>)
    reads qs, all`prev, all`next
  {
    && (forall q :: q in qs ==> Among(all, q))
    && forall p, q {:trigger Apart(p, q)} :: p in qs && q in qs && p != q ==> Apart(p, q)
  }

  /** A member of any ring has both its links set; so the assertion of queue_add, that they are
      null, is all it takes to know that the element is in no ring. */
  lemma NullIsFree(q: Queue, e: Link)
    requires q.Valid() && (e.prev == null || e.next == null)
    ensures e != q.head && e !in q.Elems
  {
    Ends(q.head, q.Elems);
    forall i | 0 <= i < |q.Elems| ensures q.Elems[i] != e {
      assert Joined(q.head, q.Elems, i) && Joined(q.head, q.Elems, i + 1);
    }
  }

  lemma NullIsNowhere(all: set<Link>, qs: set<Queue>, e: Link)
    requires Separate(all, qs) && (e.prev == null || e.next == null)
    ensures forall q :: q in qs ==> e != q.head && e !in q.Elems
  {
    forall q | q in qs ensures e != q.head && e !in q.Elems {
      assert Among(all, q);
      NullIsFree(q, e);
    }
  }

  /** A ring none of whose links has been written. */
  twostate lemma Untouched(p: Queue)
    requires old(p.Valid()) && p.Elems == old(p.Elems)
    requires forall l :: l == p.head || l in p.Elems ==> l.prev == old(l.prev) && l.next == old(l.next)
    ensures p.Valid()
  {
    forall i | 0 <= i <= |p.Elems| ensures Joined(p.head, p.Elems, i) {
      assert old(Joined(p.head, p.Elems, i));
    }
  }

  /** Adding an unlinked element to one ring: no other ring notices, and it was in none of them. */
  method AddTo(ghost all: set<Link>, ghost qs: set<Queue>, q: Queue, e: Link, field: nat)
    requires Separate(all, qs) && q in qs && e in all && e.prev == null && e.next == null
    modifies q`Elems, q.head`prev, q.head`next, q.Elems`prev, q.Elems`next, e`prev, e`next
    ensures Separate(all, qs)
    ensures forall p :: p in qs ==> e !in old(p.Elems) && (p != q ==> p.Elems == old(p.Elems))
    ensures q.Elems == Insert(old(q.Elems), Position(old(KeysOf(q.Elems, field)), e.Key(field)), e)
  {
    hide Insert, Position;
    assert Among(all, q);
    NullIsNowhere(all, qs, e);
    InsertElems(q.Elems, Position(KeysOf(q.Elems, field), e.Key(field)), e);
    q.QueueAdd(e, field);
    forall p | p in qs && p != q ensures Among(all, p) && Apart(p, q) && Apart(q, p) {
      assert old(Among(all, p) && Apart(p, q));
      Untouched(p);
    }
  }

  /** Taking any member out of one ring: it can then be added to another. */
  method DelFrom(ghost all: set<Link>, ghost qs: set<Queue>, q: Queue, e: Link)
    requires Separate(all, qs) && q in qs && e in q.Elems
    modifies q`Elems, q.head`prev, q.head`next, q.Elems`prev, q.Elems`next
    ensures Separate(all, qs) && e.prev == null && e.next == null
    ensures forall p :: p in qs && p != q ==> p.Elems == old(p.Elems)
    ensures q.Elems == Without(old(q.Elems), e)
  {
    assert Among(all, q);
    CutElems(q.Elems, SlotOf(q.Elems, e));
    q.QueueDel(e);
    forall p | p in qs && p != q ensures Among(all, p) && Apart(p, q) && Apart(q, p) {
      assert old(Among(all, p) && Apart(p, q));
      Untouched(p);
    }
  }

  method OutOf(ghost all: set<Link>, ghost qs: set<Queue>, q: Queue) returns (r: Link?)
    requires Separate(all, qs) && q in qs
    modifies q`Elems, q.head`prev, q.head`next, q.Elems`prev, q.Elems`next
    ensures Separate(all, qs) && (r != null ==> r.prev == null && r.next == null)
    ensures forall p :: p in qs && p != q ==> p.Elems == old(p.Elems)
    ensures old(q.Elems) == [] ==> r == null && q.Elems == []
    ensures old(q.Elems) != [] ==> r == old(q.Elems)[0] && q.Elems == old(q.Elems)[1..]
  {
    assert Among(all, q);
    r := q.QueueOut();
    forall p | p in qs && p != q ensures Among(all, p) && Apart(p, q) && Apart(q, p) {
      assert old(Among(all, p) && Apart(p, q));
      Untouched(p);
    }
  }
}
