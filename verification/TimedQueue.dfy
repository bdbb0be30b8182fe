/** A multimap from due times to entries: earliest first, entries with the same time in the order of
    arrival. */
module TimedQueue {

  type Queue<T> = seq<(int, T)>

  ghost predicate InOrder<T>(q: Queue<T>) {
    forall i, j :: 0 <= i < j < |q| ==> q[i].0 <= q[j].0
  }

  /** A new entry goes behind every entry that is due no later. */
  function Insert<T>(q: Queue<T>, due: int, x: T): (r: Queue<T>)
    ensures |r| == |q| + 1
  {
    if q == [] || q[|q| - 1].0 <= due then q + [(due, x)]
    else Insert(q[..|q| - 1], due, x) + [q[|q| - 1]]
  }

  /** Inserting keeps the order, loses nothing and adds exactly the new entry. */
  lemma {:induction false} InsertKeepsAll<T>(q: Queue<T>, due: int, x: T)
    ensures multiset(Insert(q, due, x)) == multiset(q) + multiset{(due, x)}
    ensures InOrder(q) ==> InOrder(Insert(q, due, x))
    ensures Insert(q, due, x) != []
  {
    if q == [] || q[|q| - 1].0 <= due {
    } else {
      var front, last := q[..|q| - 1], q[|q| - 1];
      InsertKeepsAll(front, due, x);
      assert q == front + [last];
      if InOrder(q) {
        InsertBounded(front, due, x, last.0);
      }
    }
  }

  lemma {:induction false} InsertBounded<T>(q: Queue<T>, due: int, x: T, bound: int)
    requires due <= bound && forall i :: 0 <= i < |q| ==> q[i].0 <= bound
    ensures forall i :: 0 <= i <= |q| ==> Insert(q, due, x)[i].0 <= bound
  {
    if q == [] || q[|q| - 1].0 <= due {
    } else {
      InsertBounded(q[..|q| - 1], due, x, bound);
    }
  }

  /** The position of the new entry: everything before it is due no later, everything after it is due
      later, and the old entries keep their order around it. */
  lemma {:induction false} InsertPosition<T>(q: Queue<T>, due: int, x: T) returns (p: nat)
    requires InOrder(q)
    ensures p <= |q|
    ensures Insert(q, due, x) == q[..p] + [(due, x)] + q[p..]
    ensures forall i :: 0 <= i < p ==> q[i].0 <= due
    ensures forall i :: p <= i < |q| ==> q[i].0 > due
  {
    if q == [] || q[|q| - 1].0 <= due {
      p := |q|;
    } else {
      var front := q[..|q| - 1];
      p := InsertPosition(front, due, x);
      assert q[..p] == front[..p];
      assert q[p..] == front[p..] + [q[|q| - 1]];
    }
  }
}
