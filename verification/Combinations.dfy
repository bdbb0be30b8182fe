/** The combination table of a matchmaking rule: every multiset of party sizes that adds up to the
    match size, filed under each size it contains. */
module Combinations {
  import opened Ordered

  type Parts = seq<int>

  /** How many parties of each size a combination needs. */
  type Combination = map<int, int>

  type CombinationTable = map<int, seq<Combination>>

  function Min(a: int, b: int): int {
    if a <= b then a else b
  }

  // ---------- The reference enumerator ----------

  function Sum(p: Parts): int {
    if p == [] then 0 else Sum(p[..|p| - 1]) + p[|p| - 1]
  }

  function PrependAll(prefix: Parts, ps: seq<Parts>): (r: seq<Parts>)
    ensures |r| == |ps|
  {
    seq(|ps|, i requires 0 <= i < |ps| => prefix + ps[i])
  }

  /** All non-decreasing lists of parts in least..limit that add up to total. */
  function Partitions(total: nat, least: int, limit: int): seq<Parts>
    requires 1 <= least
    decreases total, limit - least + 1
  {
    if total == 0 then [[]]
    else if least > Min(total, limit) then []
    else PrependAll([least], Partitions(total - least, least, limit)) + Partitions(total, least + 1, limit)
  }

  ghost predicate IsPartition(p: Parts, total: int, least: int, limit: int) {
    && Sum(p) == total
    && (forall i :: 0 <= i < |p| ==> least <= p[i] <= limit)
    && (forall i, j :: 0 <= i < j < |p| ==> p[i] <= p[j])
  }

  lemma {:induction false} SumCons(x: int, p: Parts)
    ensures Sum([x] + p) == x + Sum(p)
  {
    if p == [] {
      assert ([x] + p)[..0] == [];
    } else {
      SumCons(x, p[..|p| - 1]);
      assert ([x] + p)[..|p|] == [x] + p[..|p| - 1];
    }
  }

  lemma {:induction false} SumAtLeast(p: Parts, least: int)
    requires forall i :: 0 <= i < |p| ==> least <= p[i]
    requires 1 <= least
    ensures Sum(p) >= |p|
    ensures p != [] ==> Sum(p) >= p[0]
  {
    if |p| > 1 {
      SumAtLeast(p[..|p| - 1], least);
    } else if |p| == 1 {
      assert Sum(p[..0]) == 0;
    }
  }

  lemma PrependMember(x: int, ps: seq<Parts>, p: Parts)
    ensures p in PrependAll([x], ps) <==> p != [] && p[0] == x && p[1..] in ps
  {
    var all := PrependAll([x], ps);
    if p in all {
      var i :| 0 <= i < |ps| && all[i] == p;
      assert ps[i] == p[1..];
    }
    if p != [] && p[0] == x && p[1..] in ps {
      var i :| 0 <= i < |ps| && ps[i] == p[1..];
      assert all[i] == p;
    }
  }

  lemma PartitionCons(p: Parts, total: int, least: int, limit: int)
    requires p != [] && p[0] == least <= limit
    ensures IsPartition(p, total, least, limit) <==> IsPartition(p[1..], total - least, least, limit)
  {
    var q := p[1..];
    assert p == [least] + q;
    SumCons(least, q);
    if IsPartition(q, total - least, least, limit) {
      forall i | 0 <= i < |p| ensures least <= p[i] <= limit {
        assert i > 0 ==> p[i] == q[i - 1];
      }
      forall i, j | 0 <= i < j < |p| ensures p[i] <= p[j] {
        assert p[j] == q[j - 1];
        assert i > 0 ==> p[i] == q[i - 1];
      }
    }
  }

  lemma PartitionLarger(p: Parts, total: int, least: int, limit: int)
    requires total > 0 && !(p != [] && p[0] == least)
    ensures IsPartition(p, total, least, limit) <==> IsPartition(p, total, least + 1, limit)
  {
    if p != [] && IsPartition(p, total, least, limit) {
      forall i | 0 <= i < |p| ensures p[i] >= least + 1 {
        assert p[0] <= p[i];
      }
    }
  }

  lemma PartitionNone(p: Parts, total: nat, least: int, limit: int)
    requires 1 <= least && (total == 0 || least > Min(total, limit))
    ensures IsPartition(p, total, least, limit) <==> total == 0 && p == []
  {
    if IsPartition(p, total, least, limit) {
      SumAtLeast(p, least);
    }
  }

  /** The enumerator lists exactly the partitions. */
  lemma {:induction false} PartitionsExact(p: Parts, total: nat, least: int, limit: int)
    requires 1 <= least
    ensures p in Partitions(total, least, limit) <==> IsPartition(p, total, least, limit)
    decreases total, limit - least + 1
  {
    hide IsPartition;
    if total == 0 || least > Min(total, limit) {
      PartitionNone(p, total, least, limit);
    } else {
      hide PrependAll;
      PrependMember(least, Partitions(total - least, least, limit), p);
      PartitionsExact(p, total, least + 1, limit);
      if p != [] && p[0] == least {
        PartitionsExact(p[1..], total - least, least, limit);
        PartitionCons(p, total, least, limit);
        LaterIsLarger(p, total, least, limit);
      } else {
        PartitionLarger(p, total, least, limit);
      }
    }
  }

  lemma LaterIsLarger(p: Parts, total: int, least: int, limit: int)
    requires p != [] && p[0] == least
    ensures !IsPartition(p, total, least + 1, limit)
  {
  }

  /** Strict lexicographic order on lists of parts. */
  ghost predicate LexLess(a: Parts, b: Parts) {
    exists i :: 0 <= i < |a| && i < |b| && a[..i] == b[..i] && a[i] < b[i]
  }

  lemma LexLessPrepend(x: int, a: Parts, b: Parts)
    requires LexLess(a, b)
    ensures LexLess([x] + a, [x] + b)
  {
    var k :| 0 <= k < |a| && k < |b| && a[..k] == b[..k] && a[k] < b[k];
    assert ([x] + a)[..k + 1] == [x] + a[..k];
    assert ([x] + b)[..k + 1] == [x] + b[..k];
  }

  ghost predicate Increasing(ps: seq<Parts>) {
    forall i, j :: 0 <= i < j < |ps| ==> LexLess(ps[i], ps[j])
  }

  /** The enumerator works in strictly increasing lexicographic order, so it lists nothing twice. */
  lemma {:induction false} PartitionsIncrease(total: nat, least: int, limit: int)
    requires 1 <= least
    ensures Increasing(Partitions(total, least, limit))
    decreases total, limit - least + 1
  {
    if total > 0 && least <= Min(total, limit) {
      var ps := Partitions(total - least, least, limit);
      var qs := Partitions(total, least + 1, limit);
      PartitionsIncrease(total - least, least, limit);
      PartitionsIncrease(total, least + 1, limit);
      var all := Partitions(total, least, limit);
      forall i, j | 0 <= i < j < |all|
        ensures LexLess(all[i], all[j])
      {
        if j < |ps| {
          LexLessPrepend(least, ps[i], ps[j]);
        } else if i < |ps| {
          assert all[j] == qs[j - |ps|];
          PartitionsExact(all[j], total, least + 1, limit);
          assert all[j] != [];
          assert all[i][..0] == all[j][..0];
        } else {
          assert all[i] == qs[i - |ps|] && all[j] == qs[j - |ps|];
        }
      }
    }
  }

  // ---------- Grouping parts by size ----------

  /** How often a size occurs in a list of parts. */
  function Count(p: Parts, k: int): nat {
    if p == [] then 0
    else Count(p[..|p| - 1], k) + (if p[|p| - 1] == k then 1 else 0)
  }

  lemma {:induction false} CountPositive(p: Parts, k: int)
    ensures Count(p, k) > 0 <==> k in p
  {
    if p != [] {
      CountPositive(p[..|p| - 1], k);
      assert p == p[..|p| - 1] + [p[|p| - 1]];
    }
  }

  lemma {:induction false} CountAppend(p: Parts, q: Parts, k: int)
    ensures Count(p + q, k) == Count(p, k) + Count(q, k)
  {
    if q == [] {
      assert p + q == p;
    } else {
      CountAppend(p, q[..|q| - 1], k);
      assert (p + q)[..|p + q| - 1] == p + q[..|q| - 1];
    }
  }

  /** The grouped form of a list of parts: size -> how often it occurs. */
  function Grouped(p: Parts): (g: Combination)
    ensures forall k :: k in g <==> k in p
  {
    map k | k in p :: Count(p, k)
  }

  lemma GroupedNeeds(p: Parts, k: int)
    ensures Needs(Grouped(p), k) == Count(p, k)
  {
    CountPositive(p, k);
  }

  function Needs(g: Combination, k: int): int {
    if k in g then g[k] else 0
  }

  /** Players a combination adds up to, counting the sizes 1..top. */
  function Weight(g: Combination, top: nat): int {
    if top == 0 then 0 else top * Needs(g, top) + Weight(g, top - 1)
  }

  /** A combination of party sizes in 1..limit that adds up to exactly total players. */
  ghost predicate IsCombination(g: Combination, total: int, limit: nat) {
    && (forall k :: k in g ==> 1 <= k <= limit && g[k] >= 1)
    && Weight(g, limit) == total
  }

  lemma {:induction false} WeightAddsPart(g: Combination, h: Combination, x: int, top: nat)
    requires forall k :: 1 <= k <= top ==> Needs(h, k) == Needs(g, k) + (if k == x then 1 else 0)
    ensures Weight(h, top) == Weight(g, top) + (if 1 <= x <= top then x else 0)
  {
    if top > 0 {
      WeightAddsPart(g, h, x, top - 1);
      if top == x {
        assert top * (Needs(g, top) + 1) == top * Needs(g, top) + top;
      }
    }
  }

  lemma {:induction false} WeightEmpty(top: nat)
    ensures Weight(map[], top) == 0
  {
    if top > 0 {
      WeightEmpty(top - 1);
    }
  }

  /** Grouping keeps the number of players. */
  lemma {:induction false} GroupedWeight(p: Parts, limit: nat)
    requires forall i :: 0 <= i < |p| ==> 1 <= p[i] <= limit
    ensures Weight(Grouped(p), limit) == Sum(p)
  {
    if p == [] {
      assert Grouped(p) == map[];
      WeightEmpty(limit);
    } else {
      var q := p[..|p| - 1];
      GroupedWeight(q, limit);
      forall k | 1 <= k <= limit
        ensures Needs(Grouped(p), k) == Needs(Grouped(q), k) + (if k == p[|p| - 1] then 1 else 0)
      {
        GroupedNeeds(p, k);
        GroupedNeeds(q, k);
      }
      WeightAddsPart(Grouped(q), Grouped(p), p[|p| - 1], limit);
    }
  }

  lemma GroupedIsCombination(p: Parts, total: int, limit: nat)
    requires forall i :: 0 <= i < |p| ==> 1 <= p[i] <= limit
    requires Sum(p) == total
    ensures IsCombination(Grouped(p), total, limit)
  {
    GroupedWeight(p, limit);
    forall k | k in p ensures Count(p, k) >= 1 {
      CountPositive(p, k);
    }
  }

  function Repeat(x: int, n: nat): (r: Parts)
    ensures |r| == n && forall i :: 0 <= i < n ==> r[i] == x
  {
    seq(n, _ => x)
  }

  /** The non-decreasing list of parts that a combination stands for. */
  function Spelled(g: Combination, top: nat): Parts
    requires forall k :: k in g ==> g[k] >= 1
  {
    if top == 0 then [] else Spelled(g, top - 1) + Repeat(top, Needs(g, top))
  }

  lemma {:induction false} RepeatCounts(x: int, n: nat, k: int)
    ensures Count(Repeat(x, n), k) == if k == x then n else 0
  {
    if n > 0 {
      RepeatCounts(x, n - 1, k);
      assert Repeat(x, n)[..n - 1] == Repeat(x, n - 1);
    }
  }

  lemma {:induction false} SpelledInOrder(g: Combination, top: nat)
    requires forall k :: k in g ==> g[k] >= 1
    ensures forall i :: 0 <= i < |Spelled(g, top)| ==> 1 <= Spelled(g, top)[i] <= top
    ensures forall i, j :: 0 <= i < j < |Spelled(g, top)| ==> Spelled(g, top)[i] <= Spelled(g, top)[j]
  {
    if top > 0 {
      SpelledInOrder(g, top - 1);
    }
  }

  lemma {:induction false} SpelledCounts(g: Combination, top: nat, k: int)
    requires forall k :: k in g ==> g[k] >= 1
    ensures Count(Spelled(g, top), k) == if 1 <= k <= top then Needs(g, k) else 0
  {
    if top > 0 {
      SpelledCounts(g, top - 1, k);
      RepeatCounts(top, Needs(g, top), k);
      CountAppend(Spelled(g, top - 1), Repeat(top, Needs(g, top)), k);
    }
  }

  /** Every combination is the grouping of some partition. */
  lemma SpelledGroups(g: Combination, total: int, limit: nat)
    requires IsCombination(g, total, limit)
    ensures Grouped(Spelled(g, limit)) == g
    ensures IsPartition(Spelled(g, limit), total, 1, limit)
  {
    var p := Spelled(g, limit);
    SpelledInOrder(g, limit);
    forall k ensures k in p <==> k in g {
      SpelledCounts(g, limit, k);
      CountPositive(p, k);
    }
    forall k | k in g ensures Grouped(p)[k] == g[k] {
      SpelledCounts(g, limit, k);
    }
    assert Grouped(p) == g;
    GroupedWeight(p, limit);
  }

  /** Two non-decreasing lists with the same grouping are the same list. */
  lemma {:induction false} GroupedInjective(p: Parts, q: Parts)
    requires forall i, j :: 0 <= i < j < |p| ==> p[i] <= p[j]
    requires forall i, j :: 0 <= i < j < |q| ==> q[i] <= q[j]
    requires forall k :: Count(p, k) == Count(q, k)
    ensures p == q
  {
    if p == [] || q == [] {
      if p != [] { CountPositive(p, p[0]); }
      if q != [] { CountPositive(q, q[0]); }
    } else {
      var x, y := p[|p| - 1], q[|q| - 1];
      CountPositive(p, x);
      CountPositive(q, x);
      CountPositive(q, y);
      CountPositive(p, y);
      assert x in q && y in p;
      assert x <= y <= x;
      var p', q' := p[..|p| - 1], q[..|q| - 1];
      assert forall k :: Count(p, k) == Count(q, k) ==> Count(p', k) == Count(q', k);
      GroupedInjective(p', q');
      assert p == p' + [x] && q == q' + [y];
    }
  }

  // ---------- Filing ----------

  /** The grouped partitions that contain size k, in the order of ps. */
  function Filed(ps: seq<Parts>, k: int): seq<Combination> {
    if ps == [] then []
    else
      var rest := Filed(ps[..|ps| - 1], k);
      var last := ps[|ps| - 1];
      if k in last then rest + [Grouped(last)] else rest
  }

  lemma {:induction false} FiledMember(ps: seq<Parts>, k: int, g: Combination)
    ensures g in Filed(ps, k) <==> exists p :: p in ps && k in p && Grouped(p) == g
  {
    if ps != [] {
      var front, last := ps[..|ps| - 1], ps[|ps| - 1];
      FiledMember(front, k, g);
      assert ps == front + [last];
      assert forall p :: p in ps <==> p in front || p == last;
    }
  }

  lemma {:induction false} FiledNoDuplicates(ps: seq<Parts>, k: int, total: nat, limit: nat)
    requires forall p :: p in ps ==> IsPartition(p, total, 1, limit)
    requires NoDuplicates(ps)
    ensures NoDuplicates(Filed(ps, k))
  {
    if ps != [] {
      var front, last := ps[..|ps| - 1], ps[|ps| - 1];
      FiledNoDuplicates(front, k, total, limit);
      FiledMember(front, k, Grouped(last));
      forall p | p in front && Grouped(p) == Grouped(last) ensures p == last {
        forall j ensures Count(p, j) == Count(last, j) {
          GroupedNeeds(p, j);
          GroupedNeeds(last, j);
        }
        assert IsPartition(p, total, 1, limit) && last in ps;
        GroupedInjective(p, last);
      }
      assert last !in front;
    }
  }

  /** What the finished table promises its readers. */
  ghost predicate TableFor(table: CombinationTable, total: nat, limit: nat) {
    && (forall k :: k in table <==> 1 <= k <= Min(total, limit))
    && (forall k, g :: k in table ==> (g in table[k] <==> IsCombination(g, total, limit) && k in g))
    && (forall k :: k in table ==> NoDuplicates(table[k]))
  }

  ghost predicate FilesAll(table: CombinationTable, ps: seq<Parts>) {
    && (forall k :: k in table <==> Filed(ps, k) != [])
    && (forall k :: k in table ==> table[k] == Filed(ps, k))
  }

  lemma IncreasingNoDuplicates(ps: seq<Parts>)
    requires Increasing(ps)
    ensures NoDuplicates(ps)
  {
  }

  lemma PartAtMostSum(p: Parts, k: int)
    requires forall i :: 0 <= i < |p| ==> 1 <= p[i]
    requires k in p
    ensures k <= Sum(p)
  {
    var q := p[..|p| - 1];
    assert p == q + [p[|p| - 1]];
    SumAtLeast(q, 1);
    if k != p[|p| - 1] {
      PartAtMostSum(q, k);
    }
  }

  lemma {:induction false} RepeatOnesSum(n: nat)
    ensures Sum(Repeat(1, n)) == n
  {
    if n > 0 {
      RepeatOnesSum(n - 1);
      assert Repeat(1, n)[..n - 1] == Repeat(1, n - 1);
    }
  }

  lemma FiledExactly(total: nat, limit: nat, k: int, g: Combination)
    ensures g in Filed(Partitions(total, 1, limit), k) <==> IsCombination(g, total, limit) && k in g
  {
    var ps := Partitions(total, 1, limit);
    FiledMember(ps, k, g);
    if g in Filed(ps, k) {
      var p :| p in ps && k in p && Grouped(p) == g;
      PartitionsExact(p, total, 1, limit);
      GroupedIsCombination(p, total, limit);
    }
    if IsCombination(g, total, limit) && k in g {
      SpelledGroups(g, total, limit);
      PartitionsExact(Spelled(g, limit), total, 1, limit);
      assert k in Grouped(Spelled(g, limit));
    }
  }

  lemma FiledKeys(total: nat, limit: nat, k: int)
    requires total > 0 && limit > 0
    ensures Filed(Partitions(total, 1, limit), k) != [] <==> 1 <= k <= Min(total, limit)
  {
    var ps := Partitions(total, 1, limit);
    if Filed(ps, k) != [] {
      var g := Filed(ps, k)[0];
      FiledMember(ps, k, g);
      var p :| p in ps && k in p && Grouped(p) == g;
      PartitionsExact(p, total, 1, limit);
      PartAtMostSum(p, k);
    }
    if 1 <= k <= Min(total, limit) {
      var p := Repeat(1, total - k) + [k];
      assert p[..|p| - 1] == Repeat(1, total - k);
      RepeatOnesSum(total - k);
      PartitionsExact(p, total, 1, limit);
      FiledMember(ps, k, Grouped(p));
    }
  }

  /** For every match size and party limit, filing the enumerated partitions gives a table whose
      list under size k holds exactly the combinations of the match size that contain k, once each,
      and whose keys are exactly 1..min(match size, limit). */
  lemma FiledPartitionsAreTable(table: CombinationTable, total: nat, limit: nat)
    requires total > 0 && limit > 0
    requires FilesAll(table, Partitions(total, 1, limit))
    ensures TableFor(table, total, limit)
  {
    var ps := Partitions(total, 1, limit);
    forall k ensures k in table <==> 1 <= k <= Min(total, limit) {
      FiledKeys(total, limit, k);
    }
    forall k, g | k in table
      ensures g in table[k] <==> IsCombination(g, total, limit) && k in g
    {
      FiledExactly(total, limit, k, g);
    }
    PartitionsIncrease(total, 1, limit);
    IncreasingNoDuplicates(ps);
    forall p | p in ps ensures IsPartition(p, total, 1, limit) {
      PartitionsExact(p, total, 1, limit);
    }
    forall k | k in table ensures NoDuplicates(table[k]) {
      FiledNoDuplicates(ps, k, total, limit);
    }
  }
}
