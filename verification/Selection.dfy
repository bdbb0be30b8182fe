/** What it means to pick a match out of a queue, independently of how it is searched for:
    any set of QUEUED waiting tickets whose players add up to the match size. */
module Selection {
  import opened Tickets
  import opened Combinations
  import opened Ordered

  /** How a worker sees one waiting request. */
  datatype Slot = Slot(size: int, queued: bool)

  type View = map<TicketId, Slot>

  ghost predicate Known(v: View, ids: seq<TicketId>) {
    forall i :: 0 <= i < |ids| ==> ids[i] in v
  }

  ghost predicate AllQueued(v: View, ids: seq<TicketId>) {
    forall i :: 0 <= i < |ids| ==> ids[i] in v && v[ids[i]].queued
  }

  /** Party sizes of a list of waiting tickets. */
  ghost function Sizes(v: View, ids: seq<TicketId>): Parts
    requires Known(v, ids)
  {
    seq(|ids|, i requires 0 <= i < |ids| => v[ids[i]].size)
  }

  /** A list of distinct QUEUED waiting tickets whose players make exactly one match. */
  ghost predicate Fills(v: View, n: int, ids: seq<TicketId>) {
    && ids != []
    && NoDuplicates(ids)
    && AllQueued(v, ids)
    && Sum(Sizes(v, ids)) == n
  }

  /** Every waiting request has a size the combination table knows. */
  ghost predicate SizesKnown(v: View, total: nat, limit: nat) {
    forall id :: id in v ==> 1 <= v[id].size <= Min(total, limit)
  }

  /** A filling list that no other filling list beats on age: none has an older ticket. */
  ghost predicate FillsBest(v: View, n: int, ids: seq<TicketId>) {
    && Fills(v, n, ids)
    && exists oldest :: Oldest(oldest, ids) && NoneOlder(v, n, oldest)
  }

  /** No set of QUEUED waiting tickets makes a match. */
  ghost predicate NoneFills(v: View, n: int) {
    forall ids :: !Fills(v, n, ids)
  }

  ghost predicate NoneOlder(v: View, n: int, oldest: TicketId) {
    forall ids, id :: Fills(v, n, ids) && id in ids ==> oldest <= id
  }

  ghost predicate Oldest(id: TicketId, ids: seq<TicketId>) {
    id in ids && forall x :: x in ids ==> id <= x
  }

  ghost function QueuedOfSize(v: View, k: int): set<TicketId> {
    set id | id in v && v[id].queued && v[id].size == k
  }

  ghost function ChosenOfSize(v: View, ids: seq<TicketId>, k: int): set<TicketId>
    requires Known(v, ids)
  {
    set id | id in ids && v[id].size == k
  }

  /** A candidate for a combination: of every size in it exactly as many QUEUED tickets as needed,
      the oldest ones of that size. */
  ghost predicate IsCandidate(v: View, g: Combination, ids: seq<TicketId>) {
    && NoDuplicates(ids)
    && AllQueued(v, ids)
    && (forall i :: 0 <= i < |ids| ==> v[ids[i]].size in g)
    && (forall k :: k in g ==> TakesOldest(v, ids, k, g[k]))
  }

  ghost predicate TakesOldest(v: View, ids: seq<TicketId>, k: int, need: int)
    requires Known(v, ids)
  {
    && |ChosenOfSize(v, ids, k)| == need
    && (forall x, y :: x in QueuedOfSize(v, k) && x !in ids && y in ChosenOfSize(v, ids, k) ==> y < x)
  }

  /** Enough QUEUED tickets of every size the combination asks for. */
  ghost predicate Available(v: View, g: Combination) {
    forall k :: k in g ==> |QueuedOfSize(v, k)| >= g[k]
  }

  lemma SizesSnoc(v: View, ids: seq<TicketId>)
    requires ids != [] && Known(v, ids)
    ensures var front := ids[..|ids| - 1];
            && Known(v, front)
            && Sizes(v, ids) == Sizes(v, front) + [v[ids[|ids| - 1]].size]
  {
  }

  /** Counting sizes in a list of distinct tickets counts the tickets of that size. */
  lemma {:induction false} CountIsCardinality(v: View, ids: seq<TicketId>, k: int)
    requires NoDuplicates(ids) && Known(v, ids)
    ensures Count(Sizes(v, ids), k) == |ChosenOfSize(v, ids, k)|
  {
    if ids == [] {
      assert ChosenOfSize(v, ids, k) == {};
    } else {
      var front, last := ids[..|ids| - 1], ids[|ids| - 1];
      assert ids == front + [last];
      CountIsCardinality(v, front, k);
      SizesSnoc(v, ids);
      assert Sizes(v, ids)[..|ids| - 1] == Sizes(v, front);
      assert last !in front;
      if v[last].size == k {
        assert ChosenOfSize(v, ids, k) == ChosenOfSize(v, front, k) + {last};
      } else {
        assert ChosenOfSize(v, ids, k) == ChosenOfSize(v, front, k);
      }
    }
  }

  ghost function CombinationOf(v: View, ids: seq<TicketId>): Combination
    requires Known(v, ids)
  {
    Grouped(Sizes(v, ids))
  }

  lemma SubsetSize<T>(a: set<T>, b: set<T>)
    requires a <= b
    ensures |a| <= |b|
  {
    assert b == a + (b - a);
  }

  /** The sizes of a filling list form one of the table's combinations, filed under each of them, and
      the queue holds enough tickets for it. */
  lemma FillingIsAvailable(v: View, total: nat, limit: nat, ids: seq<TicketId>)
    requires SizesKnown(v, total, limit) && Fills(v, total, ids)
    ensures IsCombination(CombinationOf(v, ids), total, limit)
    ensures forall id :: id in ids ==> v[id].size in CombinationOf(v, ids)
    ensures Available(v, CombinationOf(v, ids))
  {
    var p := Sizes(v, ids);
    var g := Grouped(p);
    forall i | 0 <= i < |p| ensures 1 <= p[i] <= limit {
      var id := ids[i];
      assert id in v && p[i] == v[id].size;
    }
    GroupedIsCombination(p, total, limit);
    forall id | id in ids ensures v[id].size in g {
      var i :| 0 <= i < |ids| && ids[i] == id;
      assert p[i] == v[id].size;
    }
    forall k | k in g ensures |QueuedOfSize(v, k)| >= g[k] {
      CountIsCardinality(v, ids, k);
      SubsetSize(ChosenOfSize(v, ids, k), QueuedOfSize(v, k));
    }
  }

  /** A candidate for a combination of the match size fills a match. */
  lemma CandidateFills(v: View, g: Combination, total: nat, limit: nat, ids: seq<TicketId>)
    requires total > 0 && SizesKnown(v, total, limit)
    requires IsCombination(g, total, limit) && IsCandidate(v, g, ids)
    ensures Fills(v, total, ids)
  {
    var p := Sizes(v, ids);
    forall k ensures Needs(Grouped(p), k) == Needs(g, k) {
      GroupedNeeds(p, k);
      CountIsCardinality(v, ids, k);
      if k !in g {
        assert forall id :: id in ids ==> v[id].size != k;
        assert ChosenOfSize(v, ids, k) == {};
      } else {
        assert TakesOldest(v, ids, k, g[k]);
      }
    }
    GroupedWeight(p, limit);
    SameWeight(Grouped(p), g, limit);
    assert ids == [] ==> p == [];
  }

  lemma {:induction false} SameWeight(g: Combination, h: Combination, top: nat)
    requires forall k :: Needs(g, k) == Needs(h, k)
    ensures Weight(g, top) == Weight(h, top)
  {
    if top > 0 {
      SameWeight(g, h, top - 1);
    }
  }

  /** Taking the oldest of each size is as good as any other choice of the same sizes: the candidate
      has a ticket at least as old as every ticket of the other choice. */
  lemma CandidateIsOldest(v: View, ids: seq<TicketId>, candidate: seq<TicketId>, id: TicketId)
    requires AllQueued(v, ids)
    requires IsCandidate(v, CombinationOf(v, ids), candidate)
    requires id in ids && v[id].size in CombinationOf(v, ids)
    ensures exists y :: y in candidate && y <= id
  {
    var g := CombinationOf(v, ids);
    var k := v[id].size;
    CountPositive(Sizes(v, ids), k);
    assert TakesOldest(v, candidate, k, g[k]);
    var chosen := ChosenOfSize(v, candidate, k);
    assert |chosen| > 0;
    if id !in candidate {
      var y := Pick(chosen);
      assert id in QueuedOfSize(v, k);
      assert y < id;
    }
  }

  /** The oldest QUEUED tickets of one size, without gaps. */
  ghost predicate TakesPrefix(v: View, k: int, ids: seq<TicketId>) {
    && NoDuplicates(ids)
    && (forall i :: 0 <= i < |ids| ==> ids[i] in QueuedOfSize(v, k))
    && (forall x, y :: x in QueuedOfSize(v, k) && x !in ids && y in ids ==> y < x)
  }

  /** A candidate in the making: complete for some of the sizes, nothing yet of the others. */
  ghost predicate PartialCandidate(v: View, g: Combination, done: set<int>, ids: seq<TicketId>) {
    && done <= g.Keys
    && NoDuplicates(ids)
    && AllQueued(v, ids)
    && (forall i :: 0 <= i < |ids| ==> v[ids[i]].size in done)
    && (forall k :: k in done ==> TakesOldest(v, ids, k, g[k]))
  }

  lemma {:induction false} SetOfDistinct(ids: seq<TicketId>)
    requires NoDuplicates(ids)
    ensures |set id | id in ids| == |ids|
  {
    if ids == [] {
      assert (set id | id in ids) == {};
    } else {
      var front, last := ids[..|ids| - 1], ids[|ids| - 1];
      SetOfDistinct(front);
      assert ids == front + [last];
      assert last !in front;
      assert (set id | id in ids) == (set id | id in front) + {last};
    }
  }

  /** Appending the oldest tickets of one more size completes the candidate for that size and leaves
      the others as they were. */
  lemma CandidateGrows(v: View, g: Combination, done: set<int>, ids: seq<TicketId>, k: int, more: seq<TicketId>)
    requires PartialCandidate(v, g, done, ids)
    requires k in g && k !in done && TakesPrefix(v, k, more) && |more| == g[k]
    ensures PartialCandidate(v, g, done + {k}, ids + more)
  {
    var all := ids + more;
    forall i | 0 <= i < |all| ensures all[i] in v && v[all[i]].queued && v[all[i]].size in done + {k} {
      if i >= |ids| {
        assert all[i] == more[i - |ids|];
      }
    }
    assert Known(v, all);
    forall i, j | 0 <= i < j < |all| ensures all[i] != all[j] {
      if i < |ids| <= j {
        assert v[ids[i]].size in done;
        assert more[j - |ids|] in QueuedOfSize(v, k);
      }
    }
    forall j | j in done + {k} ensures TakesOldest(v, all, j, g[j]) {
      if j == k {
        NewSizeChosen(v, done, ids, k, more);
        SetOfDistinct(more);
      } else {
        OtherSizeChosen(v, ids, k, more, j);
        assert TakesOldest(v, ids, j, g[j]);
        forall x, y | x in QueuedOfSize(v, j) && x !in all && y in ChosenOfSize(v, all, j) ensures y < x {
          assert y in ChosenOfSize(v, ids, j) && x !in ids;
        }
      }
    }
  }

  lemma NewSizeChosen(v: View, done: set<int>, ids: seq<TicketId>, k: int, more: seq<TicketId>)
    requires Known(v, ids) && Known(v, ids + more) && k !in done
    requires forall i :: 0 <= i < |ids| ==> v[ids[i]].size in done
    requires forall i :: 0 <= i < |more| ==> more[i] in QueuedOfSize(v, k)
    ensures ChosenOfSize(v, ids + more, k) == set id | id in more
  {
    forall x ensures x in ChosenOfSize(v, ids + more, k) <==> x in more {
      if x in ids {
        var i :| 0 <= i < |ids| && ids[i] == x;
      }
    }
  }

  lemma OtherSizeChosen(v: View, ids: seq<TicketId>, k: int, more: seq<TicketId>, j: int)
    requires Known(v, ids) && Known(v, ids + more) && j != k
    requires forall i :: 0 <= i < |more| ==> more[i] in QueuedOfSize(v, k)
    ensures ChosenOfSize(v, ids + more, j) == ChosenOfSize(v, ids, j)
  {
    forall x ensures x in ChosenOfSize(v, ids + more, j) <==> x in ChosenOfSize(v, ids, j) {
      if x in more {
        var i :| 0 <= i < |more| && more[i] == x;
      }
    }
  }

  /** No filling list of this combination beats the best one found so far. */
  ghost predicate Settled(v: View, n: int, g: Combination, found: bool, oldest: TicketId) {
    forall ids :: Fills(v, n, ids) && CombinationOf(v, ids) == g ==>
      found && forall id :: id in ids ==> oldest <= id
  }

  lemma SettledByNothing(v: View, total: nat, limit: nat, g: Combination, found: bool, oldest: TicketId)
    requires SizesKnown(v, total, limit)
    requires g == map[] || !Available(v, g)
    ensures Settled(v, total, g, found, oldest)
  {
    forall ids | Fills(v, total, ids) ensures CombinationOf(v, ids) != g {
      FillingIsAvailable(v, total, limit, ids);
      var x := ids[0];
      assert x in ids;
    }
  }

  lemma SettledByCandidate(v: View, total: nat, limit: nat, g: Combination, candidate: seq<TicketId>,
                           m: TicketId, oldest: TicketId)
    requires SizesKnown(v, total, limit)
    requires IsCandidate(v, g, candidate) && Oldest(m, candidate) && oldest <= m
    ensures Settled(v, total, g, true, oldest)
  {
    forall ids, id | Fills(v, total, ids) && CombinationOf(v, ids) == g && id in ids ensures oldest <= id {
      FillingIsAvailable(v, total, limit, ids);
      CandidateIsOldest(v, ids, candidate, id);
    }
  }

  lemma SettledStays(v: View, n: int, g: Combination, found: bool, found': bool,
                     oldest: TicketId, oldest': TicketId)
    requires Settled(v, n, g, found, oldest)
    requires found ==> found' && oldest' <= oldest
    ensures Settled(v, n, g, found', oldest')
  {
    forall ids | Fills(v, n, ids) && CombinationOf(v, ids) == g
      ensures found' && forall id :: id in ids ==> oldest' <= id
    {
    }
  }

  /** Once every filed combination is settled, what was found is the best there is. */
  lemma SelectionConcludes(v: View, total: nat, limit: nat, table: CombinationTable, best: seq<TicketId>, oldest: TicketId)
    requires SizesKnown(v, total, limit) && TableFor(table, total, limit)
    requires forall k, g :: k in table && (exists x :: x in v && v[x].size == k) && g in table[k]
                            ==> Settled(v, total, g, best != [], oldest)
    requires best != [] ==> Fills(v, total, best) && Oldest(oldest, best)
    ensures best == [] <==> NoneFills(v, total)
    ensures best != [] ==> FillsBest(v, total, best)
  {
    forall ids | Fills(v, total, ids)
      ensures best != [] && forall id :: id in ids ==> oldest <= id
    {
      AllSettled(v, total, limit, table, best != [], oldest, ids);
    }
  }

  /** Once every filed combination is settled, so is every way to fill a match. */
  lemma AllSettled(v: View, total: nat, limit: nat, table: CombinationTable, found: bool, oldest: TicketId,
                   ids: seq<TicketId>)
    requires SizesKnown(v, total, limit) && TableFor(table, total, limit)
    requires forall k, g :: k in table && (exists x :: x in v && v[x].size == k) && g in table[k]
                            ==> Settled(v, total, g, found, oldest)
    requires Fills(v, total, ids)
    ensures found && forall id :: id in ids ==> oldest <= id
  {
    var g := CombinationOf(v, ids);
    FillingIsAvailable(v, total, limit, ids);
    var x := ids[0];
    assert x in ids && x in v;
    var k := v[x].size;
    assert k in table && g in table[k];
    assert Settled(v, total, g, found, oldest);
  }
}
