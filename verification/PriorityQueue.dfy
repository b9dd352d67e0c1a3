/** The ordering discipline of shared/queue.h, on plain sequences.

    A queue is listed in the order in which queue_out would empty it: index 0 is the
    element just before the list head in the C ring (`head->prev`), the last index is
    `head->next`.  queue_add scans from `head->next`, that is from the last index down,
    past every element whose key is smaller than the new one.

    `Position` and `Insert` are what one call does; the rest of the module says what that
    amounts to over whole histories: a priority queue that is first-in first-out among
    equal keys. */
module PriorityQueue {

  /** Where queue_add links an element of key `c` into a queue whose keys are `keys`. */
  function Position(keys: seq<int>, c: int): (k: nat)
    ensures k <= |keys|
    ensures k > 0 ==> keys[k-1] >= c
    ensures forall i :: k <= i < |keys| ==> keys[i] < c
  {
    if |keys| == 0 then 0
    else if keys[|keys|-1] < c then Position(keys[..|keys|-1], c)
    else |keys|
  }

  /** `i < j`, as a term for the quantifiers below to be instantiated by: proofs name the
      pairs of slots they compare. */
  predicate Lt(i: int, j: int) { i < j }

  /** The contract of `Position` leaves no choice. */
  lemma {:induction false} PositionUnique(keys: seq<int>, c: int, k: nat)
    requires k <= |keys|
    requires k > 0 ==> keys[k-1] >= c
    requires forall i :: k <= i < |keys| ==> keys[i] < c
    ensures k == Position(keys, c)
  {
    if k < |keys| {
      PositionUnique(keys[..|keys|-1], c, k);
    }
  }

  /** queue_add puts the new element in slot `k` and moves no other. */
  function Insert<T>(q: seq<T>, k: nat, x: T): (r: seq<T>)
    requires k <= |q|
    ensures |r| == |q| + 1 && r[k] == x
    ensures forall j :: 0 <= j < k ==> r[j] == q[j]
    ensures forall j :: k < j < |r| ==> r[j] == q[j-1]
  {
    seq(|q| + 1, j requires 0 <= j <= |q| => if j < k then q[j] else if j == k then x else q[j-1])
  }

  /** queue_del closes up slot `k` and moves no other element. */
  function Cut<T>(q: seq<T>, k: nat): (r: seq<T>)
    requires k < |q|
    ensures |r| == |q| - 1
    ensures forall j :: 0 <= j < k ==> r[j] == q[j]
    ensures forall j :: k <= j < |r| ==> r[j] == q[j+1]
  {
    seq(|q| - 1, j requires 0 <= j < |q| - 1 => if j < k then q[j] else q[j+1])
  }

  ghost predicate Sorted(keys: seq<int>) {
    forall i, j {:trigger Lt(i, j)} :: 0 <= i && Lt(i, j) && j < |keys| ==> keys[i] >= keys[j]
  }

  ghost predicate NoDup<T>(q: seq<T>) {
    forall i, j {:trigger Lt(i, j)} :: 0 <= i && Lt(i, j) && j < |q| ==> q[i] != q[j]
  }

  /** The slot an element is linked in. */
  function SlotOf<T(==)>(q: seq<T>, x: T): (k: nat)
    requires x in q
    ensures k < |q| && q[k] == x
    ensures forall j :: 0 <= j < k ==> q[j] != x
  {
    SlotFrom(q, x, 0)
  }

  function SlotFrom<T(==)>(q: seq<T>, x: T, i: nat): (k: nat)
    requires exists j :: i <= j < |q| && q[j] == x
    ensures i <= k < |q| && q[k] == x
    ensures forall j :: i <= j < k ==> q[j] != x
    decreases |q| - i
  {
    if q[i] == x then i else SlotFrom(q, x, i + 1)
  }

  /** The queue without one of its elements. */
  function Without<T(==)>(q: seq<T>, x: T): seq<T> {
    if x in q then Cut(q, SlotOf(q, x)) else q
  }

  /** In a queue without repetitions, removing an element removes all trace of it. */
  lemma WithoutElems<T>(q: seq<T>, x: T)
    requires NoDup(q)
    ensures NoDup(Without(q, x))
    ensures forall y :: y in Without(q, x) <==> y in q && y != x
  {
    if x in q {
      CutElems(q, SlotOf(q, x));
    }
  }

  lemma CutElems<T>(q: seq<T>, k: nat)
    requires NoDup(q) && k < |q|
    ensures NoDup(Cut(q, k))
    ensures forall y :: y in Cut(q, k) <==> y in q && y != q[k]
  {
    var r := Cut(q, k);
    forall i, j | 0 <= i && Lt(i, j) && j < |r| ensures r[i] != r[j] {
      assert Lt(if i < k then i else i + 1, if j < k then j else j + 1);
    }
    forall y | y in q && y != q[k] ensures y in r {
      var i := SlotOf(q, y);
      assert r[if i < k then i else i - 1] == y;
    }
    forall i | 0 <= i < |r| ensures r[i] in q && r[i] != q[k] {
      assert if i < k then Lt(i, k) else Lt(k, i + 1);
    }
  }

  lemma InsertElems<T>(q: seq<T>, k: nat, x: T)
    requires k <= |q|
    ensures forall y :: y in Insert(q, k, x) <==> y in q || y == x
    ensures NoDup(q) && x !in q ==> NoDup(Insert(q, k, x))
  {
    var r := Insert(q, k, x);
    assert r[k] == x;
    forall y | y in q ensures y in r {
      var i := SlotOf(q, y);
      assert r[if i < k then i else i + 1] == y;
    }
    forall i | 0 <= i < |r| && i != k ensures r[i] in q {
    }
    if NoDup(q) && x !in q {
      forall i, j | 0 <= i && Lt(i, j) && j < |r| ensures r[i] != r[j] {
        assert i == k || j == k || Lt(if i < k then i else i - 1, if j < k then j else j - 1);
      }
    }
  }

  lemma NoDupTail<T>(q: seq<T>)
    requires NoDup(q) && q != []
    ensures NoDup(q[1..]) && q[0] !in q[1..]
    ensures forall y :: y in q <==> y == q[0] || y in q[1..]
  {
    assert Cut(q, 0) == q[1..];
    CutElems(q, 0);
  }

  lemma SortedInsert(keys: seq<int>, c: int)
    requires Sorted(keys)
    ensures Sorted(Insert(keys, Position(keys, c), c))
  {
    var k := Position(keys, c);
    var r := Insert(keys, k, c);
    forall i, j | 0 <= i && Lt(i, j) && j < |r| ensures r[i] >= r[j] {
      if i < k {
        assert i == k - 1 || Lt(i, k - 1);
        assert j == k || Lt(i, if j < k then j else j - 1);
      } else if k < i {
        assert Lt(i - 1, j - 1);
      }
    }
  }

  lemma SortedCut(keys: seq<int>, k: nat)
    requires Sorted(keys) && k < |keys|
    ensures Sorted(Cut(keys, k))
  {
    var r := Cut(keys, k);
    forall i, j | 0 <= i && Lt(i, j) && j < |r| ensures r[i] >= r[j] {
      assert Lt(if i < k then i else i + 1, if j < k then j else j + 1);
    }
  }

  /** Draining a sorted queue from its low end, up to the first key above the limit, takes
      out every key that does not exceed the limit and no other. */
  lemma PrefixIsFilter(keys: seq<int>, m: nat, limit: int)
    requires Sorted(keys) && m <= |keys|
    requires m > 0 ==> keys[m-1] > limit
    requires forall i :: m <= i < |keys| ==> keys[i] <= limit
    ensures forall i :: 0 <= i < |keys| ==> (i < m <==> keys[i] > limit)
  {
    forall i | 0 <= i < m ensures keys[i] > limit {
      assert i == m - 1 || Lt(i, m - 1);
    }
  }

  /** With a constant key the queue is a plain FIFO (message buffers, semaphore waiters). */
  lemma {:induction false} ConstantKeyIsFifo<T>(q: seq<T>, keys: seq<int>, x: T, c: int)
    requires |keys| == |q| && forall i :: 0 <= i < |keys| ==> keys[i] == c
    ensures Position(keys, c) == |q|
    ensures Insert(q, Position(keys, c), x) == q + [x]
  {
    PositionUnique(keys, c, |q|);
  }

  // ----- Histories -------------------------------------------------------------------

  /** An element together with its key and the moment it was added. */
  datatype Item = Item(key: int, date: nat)

  datatype Op = Add(key: int) | Out | Del(slot: nat)

  function Keys(q: seq<Item>): (r: seq<int>)
    ensures |r| == |q| && forall i :: 0 <= i < |q| ==> r[i] == q[i].key
  {
    seq(|q|, i requires 0 <= i < |q| => q[i].key)
  }

  function Step(q: seq<Item>, now: nat, op: Op): seq<Item> {
    match op
    case Add(c) => Insert(q, Position(Keys(q), c), Item(c, now))
    case Out => if q == [] then q else q[1..]
    case Del(k) => if k < |q| then Cut(q, k) else q
  }

  /** The queue after a history of calls; call number i happens at date i. */
  function Run(ops: seq<Op>): seq<Item> {
    if ops == [] then []
    else Step(Run(ops[..|ops|-1]), |ops| - 1, ops[|ops|-1])
  }

  /** Larger key first; among equal keys, the older first. */
  predicate Before(a: Item, b: Item) {
    a.key > b.key || (a.key == b.key && a.date < b.date)
  }

  ghost predicate Stable(q: seq<Item>) {
    forall i, j :: 0 <= i < j < |q| ==> Before(q[i], q[j])
  }

  lemma AddStable(q: seq<Item>, now: nat, c: int)
    requires Stable(q) && forall i :: 0 <= i < |q| ==> q[i].date < now
    ensures Stable(Insert(q, Position(Keys(q), c), Item(c, now)))
  {
    var k := Position(Keys(q), c);
    var r := Insert(q, k, Item(c, now));
    forall i | 0 <= i < k ensures Before(q[i], Item(c, now)) {
      assert i == k - 1 || Before(q[i], q[k-1]);
    }
    forall i | k <= i < |q| ensures Before(Item(c, now), q[i]) {
      assert Keys(q)[i] < c;
    }
    forall i, j | 0 <= i < j < |r| ensures Before(r[i], r[j]) {
      var a, b := if i < k then i else i - 1, if j < k then j else j - 1;
      assert i == k || r[i] == q[a];
      assert j == k || r[j] == q[b];
    }
  }

  lemma StepStable(q: seq<Item>, now: nat, op: Op)
    requires Stable(q) && forall i :: 0 <= i < |q| ==> q[i].date < now
    ensures Stable(Step(q, now, op))
    ensures forall i :: 0 <= i < |Step(q, now, op)| ==> Step(q, now, op)[i].date < now + 1
  {
    match op {
      case Add(c) => AddStable(q, now, c);
      case Out =>
      case Del(k) =>
    }
  }

  /** Every history of queue_add, queue_out and queue_del leaves the queue in the stable
      order, so queue_out always hands over the oldest among the largest keys. */
  lemma {:induction false} RunStable(ops: seq<Op>)
    ensures Stable(Run(ops)) && forall i :: 0 <= i < |Run(ops)| ==> Run(ops)[i].date < |ops|
  {
    if ops != [] {
      RunStable(ops[..|ops|-1]);
      StepStable(Run(ops[..|ops|-1]), |ops| - 1, ops[|ops|-1]);
    }
  }

  /** The stable order determines the queue from its elements: an abstract bag from which
      the oldest maximum is taken is refined, not merely approximated. */
  lemma {:induction false} StableUnique(q: seq<Item>, r: seq<Item>)
    requires Stable(q) && Stable(r)
    requires forall x :: x in q <==> x in r
    ensures q == r
  {
    assert r == [] || r[0] in q;
    if q != [] {
      assert q[0] in r && r != [];
      assert r[0] in q;
      var i :| 0 <= i < |r| && r[i] == q[0];
      var j :| 0 <= j < |q| && q[j] == r[0];
      forall x ensures x in q[1..] <==> x in r[1..] {
        StableTail(q, x);
        StableTail(r, x);
      }
      StableUnique(q[1..], r[1..]);
      assert q == [q[0]] + q[1..];
      assert r == [r[0]] + r[1..];
    }
  }

  lemma StableTail(q: seq<Item>, x: Item)
    requires Stable(q) && q != []
    ensures x in q[1..] <==> x in q && x != q[0]
  {
    if x in q && x != q[0] {
      var i :| 0 <= i < |q| && q[i] == x;
      assert q[1..][i-1] == x;
    }
    if x in q[1..] {
      var i :| 0 <= i < |q[1..]| && q[1..][i] == x;
      assert q[i+1] == x && Before(q[0], q[i+1]);
    }
  }
}
