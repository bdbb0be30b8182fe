/** The depth-first search with an explicit stack that fills the combination table, proved to refine
    the recursive enumerator of module Combinations. */
module CombinationSearch {
  import opened Combinations
  import opened Ordered

  /** One level of the search: what is left to place, the next part to try, the largest part allowed,
      and the part that opened this level (0 for the root). */
  datatype Frame = Frame(remaining: int, next: int, max: int, selected: int)

  ghost predicate ValidFrame(f: Frame, limit: int) {
    0 <= f.remaining && 1 <= f.next && f.max == Min(f.remaining, limit)
  }

  ghost predicate ValidFrames(stack: seq<Frame>, limit: int) {
    forall i :: 0 <= i < |stack| ==> ValidFrame(stack[i], limit)
  }

  /** What the search still has to output at one level, with the parts above it fixed. */
  ghost function LevelWork(parts: Parts, f: Frame, limit: int): seq<Parts>
    requires ValidFrame(f, limit)
  {
    PrependAll(parts, Partitions(f.remaining, f.next, limit))
  }

  /** What is still to come from the lowest n levels of a stack, the highest of them first. */
  ghost function Pending(stack: seq<Frame>, parts: Parts, n: nat, limit: int): seq<Parts>
    requires ValidFrames(stack, limit)
    requires n <= |stack| <= |parts| + 1
  {
    if n == 0 then []
    else LevelWork(parts[..n - 1], stack[n - 1], limit) + Pending(stack, parts, n - 1, limit)
  }

  /** How many loop iterations one level still costs. */
  ghost function LevelSteps(remaining: int, next: int, limit: int): nat
    requires 1 <= next
    decreases remaining, limit - next + 1
  {
    if remaining <= 0 || next > Min(remaining, limit) then 1
    else 1 + LevelSteps(remaining - next, next, limit) + LevelSteps(remaining, next + 1, limit)
  }

  ghost function Steps(stack: seq<Frame>, n: nat, limit: int): nat
    requires ValidFrames(stack, limit)
    requires n <= |stack|
  {
    if n == 0 then 0
    else LevelSteps(stack[n - 1].remaining, stack[n - 1].next, limit) + Steps(stack, n - 1, limit)
  }

  /** The work of the lower levels does not depend on what lies above them. */
  lemma {:induction false} LowerLevels(s: seq<Frame>, p: Parts, s': seq<Frame>, p': Parts, n: nat, limit: int)
    requires ValidFrames(s, limit) && ValidFrames(s', limit)
    requires n <= |s| <= |p| + 1 && n <= |s'| <= |p'| + 1
    requires s[..n] == s'[..n]
    requires n > 0 ==> p[..n - 1] == p'[..n - 1]
    ensures Pending(s, p, n, limit) == Pending(s', p', n, limit)
    ensures Steps(s, n, limit) == Steps(s', n, limit)
  {
    if n > 0 {
      assert s[n - 1] == s[..n][n - 1] == s'[..n][n - 1] == s'[n - 1];
      assert s[..n - 1] == s[..n][..n - 1] == s'[..n][..n - 1] == s'[..n - 1];
      if n > 1 {
        assert p[..n - 2] == p[..n - 1][..n - 2] == p'[..n - 1][..n - 2] == p'[..n - 2];
      }
      LowerLevels(s, p, s', p', n - 1, limit);
    }
  }

  /** The shape of the search state: the parts are one shorter than the stack, non-decreasing, and
      at every level the parts so far and the remainder add up to the match size. */
  ghost predicate WellStacked(stack: seq<Frame>, parts: Parts, total: int, limit: int) {
    && ValidFrames(stack, limit)
    && (if stack == [] then parts == [] else |parts| == |stack| - 1 && stack[0].selected == 0)
    && (forall i :: 0 <= i < |parts| ==> 1 <= parts[i] == stack[i + 1].selected <= stack[i + 1].next)
    && (forall i, j :: 0 <= i < j < |parts| ==> parts[i] <= parts[j])
    && (forall i :: 0 <= i < |stack| ==> LevelTotal(stack, parts, i) == total)
  }

  ghost function LevelTotal(stack: seq<Frame>, parts: Parts, i: nat): int
    requires i < |stack| <= |parts| + 1
  {
    Sum(parts[..i]) + stack[i].remaining
  }

  lemma ConcatAssociates<T>(a: seq<T>, b: seq<T>, c: seq<T>)
    ensures (a + b) + c == a + (b + c)
  {
  }

  lemma PrependSplits(prefix: Parts, a: seq<Parts>, b: seq<Parts>)
    ensures PrependAll(prefix, a + b) == PrependAll(prefix, a) + PrependAll(prefix, b)
  {
  }

  lemma PrependNests(prefix: Parts, x: int, a: seq<Parts>)
    ensures PrependAll(prefix, PrependAll([x], a)) == PrependAll(prefix + [x], a)
  {
    forall i | 0 <= i < |a|
      ensures PrependAll(prefix, PrependAll([x], a))[i] == PrependAll(prefix + [x], a)[i]
    {
      assert prefix + ([x] + a[i]) == (prefix + [x]) + a[i];
    }
  }

  lemma LevelOver(parts: Parts, f: Frame, limit: int)
    requires ValidFrame(f, limit)
    ensures f.remaining == 0 ==> LevelWork(parts, f, limit) == [parts]
    ensures f.remaining > 0 && f.next > f.max ==> LevelWork(parts, f, limit) == []
  {
    if f.remaining == 0 {
      assert parts + [] == parts;
      assert LevelWork(parts, f, limit)[0] == parts;
    }
  }

  ghost function Child(f: Frame, limit: int): Frame {
    Frame(f.remaining - f.next, f.next, Min(f.remaining - f.next, limit), f.next)
  }

  ghost function Advanced(f: Frame): Frame {
    f.(next := f.next + 1)
  }

  /** Trying the next part splits a level's work in two: what starts with that part, and the rest. */
  lemma LevelSplits(parts: Parts, f: Frame, limit: int)
    requires ValidFrame(f, limit) && f.remaining > 0 && f.next <= f.max
    ensures LevelWork(parts, f, limit)
         == LevelWork(parts + [f.next], Child(f, limit), limit) + LevelWork(parts, Advanced(f), limit)
  {
    var a := Partitions(f.remaining - f.next, f.next, limit);
    PrependSplits(parts, PrependAll([f.next], a), Partitions(f.remaining, f.next + 1, limit));
    PrependNests(parts, f.next, a);
  }

  lemma PushKeepsShape(stack: seq<Frame>, parts: Parts, stack': seq<Frame>, parts': Parts, total: int, limit: int)
    requires WellStacked(stack, parts, total, limit) && stack != []
    requires var f := stack[|stack| - 1];
             && f.remaining > 0 && f.next <= f.max
             && stack' == stack[|stack| - 1 := Advanced(f)] + [Child(f, limit)]
             && parts' == parts + [f.next]
    ensures WellStacked(stack', parts', total, limit)
  {
    var n := |stack| - 1;
    forall i | 0 <= i < |stack'| ensures LevelTotal(stack', parts', i) == total {
      if i <= n {
        assert parts'[..i] == parts[..i];
        assert LevelTotal(stack, parts, i) == total;
      } else {
        assert parts'[..i] == parts' && parts'[..n] == parts == parts[..n];
        assert LevelTotal(stack, parts, n) == total;
      }
    }
    forall i, j | 0 <= i < j < |parts'| ensures parts'[i] <= parts'[j] {
      if j == n {
        assert parts[i] <= parts[n - 1] <= stack[n].next;
      }
    }
  }

  lemma PushKeepsPending(stack: seq<Frame>, parts: Parts, stack': seq<Frame>, parts': Parts, limit: int)
    requires ValidFrames(stack, limit) && ValidFrames(stack', limit)
    requires stack != [] && |parts| == |stack| - 1
    requires var f := stack[|stack| - 1];
             && f.remaining > 0 && f.next <= f.max
             && stack' == stack[|stack| - 1 := Advanced(f)] + [Child(f, limit)]
             && parts' == parts + [f.next]
    ensures Pending(stack', parts', |stack'|, limit) == Pending(stack, parts, |stack|, limit)
    ensures Steps(stack', |stack'|, limit) < Steps(stack, |stack|, limit)
  {
    var n := |stack| - 1;
    assert parts[..n] == parts == parts'[..n];
    assert parts'[..n + 1] == parts';
    assert stack[..n] == stack'[..n];
    LowerLevels(stack, parts, stack', parts', n, limit);
    PushSplitsWork(stack, parts, stack', parts', limit);
    PushSplitsSteps(stack, stack', limit);
  }

  lemma PushSplitsWork(stack: seq<Frame>, parts: Parts, stack': seq<Frame>, parts': Parts, limit: int)
    requires ValidFrames(stack, limit) && ValidFrames(stack', limit)
    requires stack != [] && |parts| == |stack| - 1 && |parts'| == |stack| && |stack'| == |stack| + 1
    requires var n := |stack| - 1;
             var f := stack[n];
             && f.remaining > 0 && f.next <= f.max
             && parts'[..n] == parts == parts[..n] && parts' == parts + [f.next] == parts'[..n + 1]
             && stack'[n] == Advanced(f) && stack'[n + 1] == Child(f, limit)
             && Pending(stack, parts, n, limit) == Pending(stack', parts', n, limit)
    ensures Pending(stack', parts', |stack'|, limit) == Pending(stack, parts, |stack|, limit)
  {
    hide LevelWork, Pending;
    var n := |stack| - 1;
    var f := stack[n];
    LevelSplits(parts, f, limit);
    TopWork(stack, parts, n + 1, limit);
    TopWork(stack', parts', n + 1, limit);
    TopWork(stack', parts', n + 2, limit);
    Regroup(LevelWork(parts', Child(f, limit), limit), LevelWork(parts, Advanced(f), limit),
            Pending(stack, parts, n, limit), LevelWork(parts, f, limit),
            Pending(stack', parts', n + 1, limit));
  }

  lemma Regroup<T>(a: seq<T>, b: seq<T>, c: seq<T>, ab: seq<T>, bc: seq<T>)
    requires ab == a + b && bc == b + c
    ensures a + bc == ab + c
  {
  }

  lemma TopWork(stack: seq<Frame>, parts: Parts, n: nat, limit: int)
    requires ValidFrames(stack, limit)
    requires 0 < n <= |stack| <= |parts| + 1
    ensures Pending(stack, parts, n, limit)
         == LevelWork(parts[..n - 1], stack[n - 1], limit) + Pending(stack, parts, n - 1, limit)
  {
  }

  lemma PushSplitsSteps(stack: seq<Frame>, stack': seq<Frame>, limit: int)
    requires ValidFrames(stack, limit) && ValidFrames(stack', limit)
    requires stack != [] && |stack'| == |stack| + 1
    requires var n := |stack| - 1;
             var f := stack[n];
             && f.remaining > 0 && f.next <= f.max
             && stack'[n] == Advanced(f) && stack'[n + 1] == Child(f, limit)
             && Steps(stack, n, limit) == Steps(stack', n, limit)
    ensures Steps(stack', |stack'|, limit) < Steps(stack, |stack|, limit)
  {
    hide LevelSteps;
    var n := |stack| - 1;
    StepsSplit(stack[n], limit);
    TopSteps(stack, n + 1, limit);
    TopSteps(stack', n + 1, limit);
    TopSteps(stack', n + 2, limit);
  }

  lemma StepsSplit(f: Frame, limit: int)
    requires ValidFrame(f, limit) && f.remaining > 0 && f.next <= f.max
    ensures LevelSteps(f.remaining, f.next, limit)
         == 1 + LevelSteps(f.remaining - f.next, f.next, limit) + LevelSteps(f.remaining, f.next + 1, limit)
  {
  }

  lemma TopSteps(stack: seq<Frame>, n: nat, limit: int)
    requires ValidFrames(stack, limit)
    requires 0 < n <= |stack|
    ensures Steps(stack, n, limit)
         == LevelSteps(stack[n - 1].remaining, stack[n - 1].next, limit) + Steps(stack, n - 1, limit)
  {
  }

  lemma PopKeepsShape(stack: seq<Frame>, parts: Parts, total: int, limit: int)
    requires WellStacked(stack, parts, total, limit) && stack != []
    ensures var n := |stack| - 1;
            var parts' := if n == 0 then [] else parts[..n - 1];
            && WellStacked(stack[..n], parts', total, limit)
            && Pending(stack, parts, n + 1, limit)
               == LevelWork(parts, stack[n], limit) + Pending(stack[..n], parts', n, limit)
            && Steps(stack[..n], n, limit) < Steps(stack, n + 1, limit)
  {
    var n := |stack| - 1;
    var parts' := if n == 0 then [] else parts[..n - 1];
    assert parts[..n] == parts;
    assert forall i :: 0 <= i < n ==> parts'[..i] == parts[..i];
    forall i | 0 <= i < n ensures LevelTotal(stack[..n], parts', i) == total {
      assert LevelTotal(stack, parts, i) == total;
    }
    LowerLevels(stack, parts, stack[..n], parts', n, limit);
  }

  lemma GroupedStep(p: Parts, x: int)
    ensures Grouped(p + [x]) == Grouped(p)[x := Needs(Grouped(p), x) + 1]
  {
    assert (p + [x])[..|p|] == p;
    forall k | k in p + [x]
      ensures Grouped(p + [x])[k] == Grouped(p)[x := Needs(Grouped(p), x) + 1][k]
    {
      GroupedNeeds(p, k);
    }
  }

  method GroupParts(parts: Parts) returns (grouped: Combination)
    ensures grouped == Grouped(parts)
  {
    grouped := map[];
    for i := 0 to |parts|
      invariant grouped == Grouped(parts[..i])
    {
      assert parts[..i + 1] == parts[..i] + [parts[i]];
      GroupedStep(parts[..i], parts[i]);
      grouped := grouped[parts[i] := Needs(grouped, parts[i]) + 1];
    }
    assert parts[..|parts|] == parts;
  }

  function FiledUnder(table: CombinationTable, k: int): seq<Combination> {
    if k in table then table[k] else []
  }

  /** The table after one combination has been appended to the lists of some sizes. */
  function Appended(table: CombinationTable, g: Combination, sizes: set<int>): CombinationTable {
    map k | k in table.Keys + sizes :: if k in sizes then FiledUnder(table, k) + [g] else table[k]
  }

  /** Appends one combination to the list of every size it contains. */
  method FileCombination(table: CombinationTable, grouped: Combination) returns (filed: CombinationTable)
    ensures filed == Appended(table, grouped, grouped.Keys)
  {
    filed := table;
    var todo := grouped.Keys;
    while todo != {}
      invariant todo <= grouped.Keys
      invariant filed == Appended(table, grouped, grouped.Keys - todo)
    {
      var k := Least(todo);
      assert grouped.Keys - (todo - {k}) == (grouped.Keys - todo) + {k};
      assert FiledUnder(filed, k) == FiledUnder(table, k);
      filed := filed[k := FiledUnder(filed, k) + [grouped]];
      todo := todo - {k};
    }
    assert grouped.Keys - todo == grouped.Keys;
  }

  lemma FilesOneMore(table: CombinationTable, ps: seq<Parts>, p: Parts)
    requires FilesAll(table, ps)
    ensures FilesAll(Appended(table, Grouped(p), Grouped(p).Keys), ps + [p])
  {
    assert (ps + [p])[..|ps|] == ps;
  }

  /** The loop invariant: output so far, followed by the work pending on the stack, is the recursive
      enumeration of the root; and the stack never outgrows the room reserved for it. */
  ghost predicate Searching(stack: seq<Frame>, parts: Parts, output: seq<Parts>, total: nat, limit: int) {
    && WellStacked(stack, parts, total, limit)
    && |stack| <= total + 1
    && output + Pending(stack, parts, |stack|, limit) == Partitions(total, 1, limit)
  }

  /** What the invariant says at every turn of the loop: the parts chosen so far and the remainder of
      the top level add up to the match size, the parts never decrease and are one shorter than the
      stack, the stack stays within matchSize + 1 levels, and the output is a prefix of the
      enumeration, hence strictly increasing. */
  lemma SearchShape(stack: seq<Frame>, parts: Parts, output: seq<Parts>, total: nat, limit: int)
    requires Searching(stack, parts, output, total, limit)
    ensures ValidFrames(stack, limit)
    ensures stack != [] ==>
      && |parts| == |stack| - 1 <= total
      && Sum(parts) + stack[|stack| - 1].remaining == total
      && (stack[|stack| - 1].selected > 0 ==> parts != [])
    ensures forall i, j :: 0 <= i < j < |parts| ==> parts[i] <= parts[j]
    ensures output <= Partitions(total, 1, limit) && Increasing(output)
  {
    PartitionsIncrease(total, 1, limit);
    if stack != [] {
      assert LevelTotal(stack, parts, |parts|) == total && parts[..|parts|] == parts;
    }
    var all := Partitions(total, 1, limit);
    forall i, j | 0 <= i < j < |output| ensures LexLess(output[i], output[j]) {
      assert output[i] == all[i] && output[j] == all[j];
    }
  }

  lemma SearchStarts(total: nat, limit: int)
    requires total > 0
    ensures Searching([Frame(total, 1, Min(total, limit), 0)], [], [], total, limit)
  {
    var root := Frame(total, 1, Min(total, limit), 0);
    var stack := [root];
    TopWork(stack, [], 1, limit);
    var all := Partitions(total, 1, limit);
    forall i | 0 <= i < |all| ensures PrependAll([], all)[i] == all[i] {
      assert [] + all[i] == all[i];
    }
    assert LevelWork([], root, limit) == all;
    assert all + [] == all;
    assert LevelTotal(stack, [], 0) == total;
  }

  lemma SearchPops(stack: seq<Frame>, parts: Parts, output: seq<Parts>, total: nat, limit: int)
    requires Searching(stack, parts, output, total, limit) && stack != []
    requires var f := stack[|stack| - 1]; f.remaining == 0 || f.next > f.max
    ensures var n := |stack| - 1;
            var parts' := if stack[n].selected > 0 then parts[..|parts| - 1] else parts;
            var output' := if stack[n].remaining == 0 then output + [parts] else output;
            && Searching(stack[..n], parts', output', total, limit)
            && Steps(stack[..n], n, limit) < Steps(stack, n + 1, limit)
  {
    hide LevelWork, Pending;
    var n := |stack| - 1;
    var f := stack[n];
    var parts' := if n == 0 then [] else parts[..n - 1];
    LevelOver(parts, f, limit);
    PopKeepsShape(stack, parts, total, limit);
    assert n > 0 ==> f.selected == parts[n - 1];
    var lower := Pending(stack[..n], parts', n, limit);
    if f.remaining == 0 {
      ConcatAssociates(output, [parts], lower);
    } else {
      assert [] + lower == lower;
    }
  }

  lemma SearchPushes(stack: seq<Frame>, parts: Parts, stack': seq<Frame>, parts': Parts,
                     output: seq<Parts>, total: nat, limit: int)
    requires Searching(stack, parts, output, total, limit) && stack != []
    requires var f := stack[|stack| - 1];
             && f.remaining > 0 && f.next <= f.max
             && stack' == stack[|stack| - 1 := Advanced(f)] + [Child(f, limit)]
             && parts' == parts + [f.next]
    ensures Searching(stack', parts', output, total, limit)
    ensures Steps(stack', |stack'|, limit) < Steps(stack, |stack|, limit)
  {
    hide Pending, Steps;
    PushKeepsShape(stack, parts, stack', parts', total, limit);
    PushKeepsPending(stack, parts, stack', parts', limit);
    SumAtLeast(parts', 1);
    assert LevelTotal(stack', parts', |parts'|) == total && parts'[..|parts'|] == parts';
  }

  /** Every multiset of party sizes up to partyLimit that fills a match, filed under each size in it.
      Non-positive arguments give the empty table. */
  method MakeCombination(matchSize: int, partyLimit: int) returns (table: CombinationTable)
    ensures matchSize <= 0 || partyLimit <= 0 ==> table == map[]
    ensures matchSize > 0 && partyLimit > 0 ==>
      && FilesAll(table, Partitions(matchSize, 1, partyLimit))
      && TableFor(table, matchSize, partyLimit)
  {
    hide Searching, Pending, Steps, FilesAll, TableFor, Partitions, Appended;
    table := map[];
    if matchSize <= 0 || partyLimit <= 0 {
      return;
    }

    var parts: Parts := [];
    var stack := [Frame(matchSize, 1, Min(matchSize, partyLimit), 0)];
    ghost var output: seq<Parts> := [];
    SearchStarts(matchSize, partyLimit);
    FilesNone();

    while stack != []
      invariant Searching(stack, parts, output, matchSize, partyLimit)
      invariant ValidFrames(stack, partyLimit)
      invariant FilesAll(table, output)
      decreases Steps(stack, |stack|, partyLimit)
    {
      var top := |stack| - 1;
      var frame := stack[top];
      SearchShape(stack, parts, output, matchSize, partyLimit);

      if frame.remaining == 0 {
        SearchPops(stack, parts, output, matchSize, partyLimit);
        var grouped := GroupParts(parts);
        FilesOneMore(table, output, parts);
        table := FileCombination(table, grouped);
        output := output + [parts];
        if frame.selected > 0 {
          parts := parts[..|parts| - 1];
        }
        stack := stack[..top];
      } else if frame.next > frame.max {
        SearchPops(stack, parts, output, matchSize, partyLimit);
        if frame.selected > 0 {
          parts := parts[..|parts| - 1];
        }
        stack := stack[..top];
      } else {
        ghost var stack0, parts0 := stack, parts;
        var part := frame.next;
        stack := stack[top := frame.(next := part + 1)];
        var remaining := frame.remaining - part;
        parts := parts + [part];
        stack := stack + [Frame(remaining, part, Min(remaining, partyLimit), part)];
        SearchPushes(stack0, parts0, stack, parts, output, matchSize, partyLimit);
      }
    }
    SearchEnds(parts, output, matchSize, partyLimit);
    FiledPartitionsAreTable(table, matchSize, partyLimit);
  }

  lemma SearchEnds(parts: Parts, output: seq<Parts>, total: nat, limit: int)
    requires Searching([], parts, output, total, limit)
    ensures output == Partitions(total, 1, limit)
  {
    assert output + [] == output;
  }

  lemma FilesNone()
    ensures FilesAll(map[], [])
  {
  }

  /** A read-only look-up. */
  function GetCombination(table: CombinationTable, k: int): (r: seq<Combination>)
    ensures k !in table ==> r == []
  {
    if k in table then table[k] else []
  }

  /** For any size at all, known or not, the look-up gives exactly the combinations that use it, each once. */
  lemma CombinationsOfSize(table: CombinationTable, total: nat, limit: nat, k: int)
    requires TableFor(table, total, limit)
    ensures forall g :: g in GetCombination(table, k) <==> IsCombination(g, total, limit) && k in g
    ensures NoDuplicates(GetCombination(table, k))
  {
    if k !in table {
      forall g | IsCombination(g, total, limit) ensures k !in g {
        if k in g {
          WeightAtLeast(g, k, limit);
        }
      }
    }
  }

  lemma {:induction false} WeightAtLeast(g: Combination, k: int, top: nat)
    requires forall x :: x in g ==> g[x] >= 1
    ensures Weight(g, top) >= 0
    ensures k in g && 1 <= k <= top ==> Weight(g, top) >= k
  {
    if top > 0 {
      WeightAtLeast(g, k, top - 1);
      TimesNeeded(top, Needs(g, top));
    }
  }

  lemma TimesNeeded(size: nat, needed: nat)
    ensures size * needed >= 0 && (needed >= 1 ==> size * needed >= size)
  {
    if needed >= 1 {
      assert size * needed == size * (needed - 1) + size;
    }
  }
}
