/** The party queue worker: three redundant structures over the waiting requests, and the search for
    a match that goes through the precomputed combinations. */
module PartyQueue {
  import opened Tickets
  import opened Ordered
  import opened Combinations
  import opened CombinationSearch
  import opened Selection

  /** A queue entry for one ticket. */
  class Request {
    const ticket: Ticket
    const id: TicketId
    const playerCount: int
    var baseWorker: int
    var expansionLevel: nat

    constructor (ticket: Ticket)
      ensures this.ticket == ticket && WellFormed()
      ensures baseWorker == 0 && expansionLevel == 0
    {
      this.ticket := ticket;
      this.id := ticket.id;
      this.playerCount := |ticket.players|;
      baseWorker, expansionLevel := 0, 0;
    }

    predicate WellFormed() {
      id == ticket.id && playerCount == |ticket.players|
    }
  }

  const MAX_TICKET_ID: TicketId := 0x7FFF_FFFF_FFFF_FFFF

  datatype Rule = Rule(matchPlayerCount: int, combinations: CombinationTable)

  ghost function Ids(requests: seq<Request>): (r: seq<TicketId>)
    ensures |r| == |requests|
  {
    seq(|requests|, i requires 0 <= i < |requests| => requests[i].id)
  }

  datatype Option<+T> = None | Some(value: T)

  /** The waiting requests of one party size. */
  ghost function OfSize(waiting: map<TicketId, Request>, k: int): map<TicketId, Request> {
    map id | id in waiting && waiting[id].playerCount == k :: waiting[id]
  }

  lemma OfSizeInsert(waiting: map<TicketId, Request>, r: Request, k: int)
    requires r.id !in waiting
    ensures OfSize(waiting[r.id := r], k)
         == if k == r.playerCount then OfSize(waiting, k)[r.id := r] else OfSize(waiting, k)
  {
  }

  lemma OfSizeRemove(waiting: map<TicketId, Request>, id: TicketId, k: int)
    ensures OfSize(waiting - {id}, k) == OfSize(waiting, k) - {id}
    ensures id !in waiting || waiting[id].playerCount != k ==> OfSize(waiting - {id}, k) == OfSize(waiting, k)
  {
  }

  function BucketOf(bySize: map<int, map<TicketId, Request>>, k: int): map<TicketId, Request> {
    if k in bySize then bySize[k] else map[]
  }

  function CountOf(counts: map<int, int>, k: int): int {
    if k in counts then counts[k] else 0
  }

  ghost predicate WellKeyed(waiting: map<TicketId, Request>) {
    forall id :: id in waiting ==> waiting[id].id == id && waiting[id].WellFormed()
  }

  /** The three structures agree: the buckets partition the waiting queue by party size, and each count
      is its bucket's size, with no entry for an empty bucket. */
  ghost predicate Consistent(waiting: map<TicketId, Request>, bySize: map<int, map<TicketId, Request>>,
                             counts: map<int, int>) {
    && WellKeyed(waiting)
    && (forall k :: BucketOf(bySize, k) == OfSize(waiting, k))
    && (forall k :: CountOf(counts, k) == |OfSize(waiting, k)|)
    && (forall k :: k in counts ==> counts[k] > 0)
  }

  lemma InsertKeepsConsistent(waiting: map<TicketId, Request>, bySize: map<int, map<TicketId, Request>>,
                              counts: map<int, int>, r: Request)
    requires Consistent(waiting, bySize, counts) && r.WellFormed() && r.id !in waiting
    ensures r.id !in BucketOf(bySize, r.playerCount)
    ensures var k := r.playerCount;
            Consistent(waiting[r.id := r], bySize[k := BucketOf(bySize, k)[r.id := r]],
                       counts[k := CountOf(counts, k) + 1])
  {
    var k := r.playerCount;
    assert BucketOf(bySize, k) == OfSize(waiting, k);
    var bySize', counts' := bySize[k := BucketOf(bySize, k)[r.id := r]], counts[k := CountOf(counts, k) + 1];
    forall j
      ensures BucketOf(bySize', j) == OfSize(waiting[r.id := r], j)
      ensures CountOf(counts', j) == |OfSize(waiting[r.id := r], j)|
    {
      OfSizeInsert(waiting, r, j);
      assert BucketOf(bySize, j) == OfSize(waiting, j) && CountOf(counts, j) == |OfSize(waiting, j)|;
    }
  }

  function WithoutEntry(bySize: map<int, map<TicketId, Request>>, k: int, id: TicketId):
    map<int, map<TicketId, Request>>
  {
    if k in bySize then bySize[k := bySize[k] - {id}] else bySize
  }

  function Decremented(counts: map<int, int>, k: int): map<int, int> {
    if k !in counts then counts
    else if counts[k] - 1 <= 0 then counts - {k}
    else counts[k := counts[k] - 1]
  }

  lemma RemoveKeepsBuckets(waiting: map<TicketId, Request>, bySize: map<int, map<TicketId, Request>>,
                           id: TicketId, j: int)
    requires id in waiting
    requires forall i :: BucketOf(bySize, i) == OfSize(waiting, i)
    ensures BucketOf(WithoutEntry(bySize, waiting[id].playerCount, id), j) == OfSize(waiting - {id}, j)
  {
    OfSizeRemove(waiting, id, j);
    assert BucketOf(bySize, j) == OfSize(waiting, j);
  }

  lemma RemoveKeepsCounts(waiting: map<TicketId, Request>, counts: map<int, int>, id: TicketId, j: int)
    requires id in waiting
    requires CountOf(counts, j) == |OfSize(waiting, j)|
    ensures CountOf(Decremented(counts, waiting[id].playerCount), j) == |OfSize(waiting - {id}, j)|
  {
    OfSizeRemove(waiting, id, j);
    if j == waiting[id].playerCount {
      assert id in OfSize(waiting, j);
    }
  }

  lemma RemoveKeepsConsistent(waiting: map<TicketId, Request>, bySize: map<int, map<TicketId, Request>>,
                              counts: map<int, int>, id: TicketId)
    requires Consistent(waiting, bySize, counts) && id in waiting
    ensures var k := waiting[id].playerCount;
            Consistent(waiting - {id}, WithoutEntry(bySize, k, id), Decremented(counts, k))
  {
    hide OfSize, CountOf, BucketOf, WithoutEntry;
    var k := waiting[id].playerCount;
    forall j ensures BucketOf(WithoutEntry(bySize, k, id), j) == OfSize(waiting - {id}, j) {
      RemoveKeepsBuckets(waiting, bySize, id, j);
    }
    forall j ensures CountOf(Decremented(counts, k), j) == |OfSize(waiting - {id}, j)| {
      RemoveKeepsCounts(waiting, counts, id, j);
    }
  }

  lemma RemoveFound(waiting: map<TicketId, Request>, bySize: map<int, map<TicketId, Request>>,
                    counts: map<int, int>, id: TicketId)
    requires Consistent(waiting, bySize, counts) && id in waiting
    ensures var k := waiting[id].playerCount; k in bySize && id in bySize[k] && k in counts
  {
    var k := waiting[id].playerCount;
    assert id in OfSize(waiting, k);
    assert BucketOf(bySize, k) == OfSize(waiting, k) && CountOf(counts, k) == |OfSize(waiting, k)|;
  }

  lemma RemoveNothing(waiting: map<TicketId, Request>, bySize: map<int, map<TicketId, Request>>,
                      counts: map<int, int>, id: TicketId, k: int)
    requires Consistent(waiting, bySize, counts) && id !in waiting
    ensures waiting - {id} == waiting && WithoutEntry(bySize, k, id) == bySize
  {
    assert BucketOf(bySize, k) == OfSize(waiting, k);
    if k in bySize {
      assert bySize[k] - {id} == bySize[k];
    }
  }

  /** Looked up under another size the entry is not found, and stays behind in its bucket. */
  lemma RemoveMisses(waiting: map<TicketId, Request>, bySize: map<int, map<TicketId, Request>>,
                     counts: map<int, int>, id: TicketId, k: int)
    requires Consistent(waiting, bySize, counts) && id in waiting && waiting[id].playerCount != k
    ensures k in bySize ==> id !in bySize[k]
    ensures WithoutEntry(bySize, k, id) == bySize && !Consistent(waiting - {id}, bySize, counts)
  {
    var own := waiting[id].playerCount;
    assert BucketOf(bySize, k) == OfSize(waiting, k);
    if k in bySize {
      assert bySize[k] - {id} == bySize[k];
    }
    assert id in OfSize(waiting, own) && id !in OfSize(waiting - {id}, own);
    assert BucketOf(bySize, own) == OfSize(waiting, own);
    assert BucketOf(bySize, own) != OfSize(waiting - {id}, own);
  }

  class PartyWorker {
    var waiting: map<TicketId, Request>
    var bySize: map<int, map<TicketId, Request>>
    var counts: map<int, int>

    constructor ()
      ensures Valid() && waiting == map[]
    {
      waiting, bySize, counts := map[], map[], map[];
    }

    ghost predicate Valid()
      reads this
    {
      Consistent(waiting, bySize, counts)
    }

    /** The waiting requests with their sizes and whether their tickets are QUEUED right now. */
    ghost function Slots(): View
      reads this, set id | id in waiting :: waiting[id].ticket
    {
      map id | id in waiting :: Slot(waiting[id].playerCount, waiting[id].ticket.status.Queued?)
    }

    method EnqueueJobRequest(request: Request) returns (ok: bool)
      requires Valid() && request.WellFormed()
      modifies this
      ensures Valid()
      ensures ok <==> request.id !in old(waiting)
      ensures waiting == if ok then old(waiting)[request.id := request] else old(waiting)
    {
      if request.id in waiting {
        return false;
      }
      InsertKeepsConsistent(waiting, bySize, counts, request);
      var k := request.playerCount;
      waiting := waiting[request.id := request];
      // The bucket never refuses an id that the queue accepted, so the roll-back arm is unreachable.
      assert request.id !in BucketOf(bySize, k);
      bySize := bySize[k := BucketOf(bySize, k)[request.id := request]];
      counts := counts[k := CountOf(counts, k) + 1];
      return true;
    }

    /** Erasing never fails, and leaves no entry under the ticket's id. The bucket is looked up by the
        ticket's own size, so the structures still agree exactly if the entry erased was of that size, which
        unique ids guarantee. */
    method Erase(ticket: Ticket) returns (ok: bool)
      requires Valid()
      modifies this
      ensures ok && waiting == old(waiting) - {ticket.id}
      ensures Valid() <==> ticket.id !in old(waiting) || old(waiting)[ticket.id].playerCount == |ticket.players|
    {
      hide Consistent;
      var id, k := ticket.id, |ticket.players|;
      if id !in waiting {
        RemoveNothing(waiting, bySize, counts, id, k);
      } else if waiting[id].playerCount == k {
        RemoveKeepsConsistent(waiting, bySize, counts, id);
        RemoveFound(waiting, bySize, counts, id);
      } else {
        RemoveMisses(waiting, bySize, counts, id, k);
      }
      var fromQueue := id in waiting;
      waiting := waiting - {id};
      var fromBucket := false;
      if k in bySize {
        fromBucket := id in bySize[k];
        bySize := bySize[k := bySize[k] - {id}];
      }
      if fromQueue && fromBucket {
        if k in counts {
          var count := counts[k] - 1;
          if count <= 0 {
            counts := counts - {k};
          } else {
            counts := counts[k := count];
          }
        }
      }
      return true;
    }

    predicate IsWorkerJobAvailable()
      reads this
    {
      waiting != map[]
    }

    lemma JobAvailableMeans()
      ensures IsWorkerJobAvailable() <==> exists id :: id in waiting
    {
      if waiting != map[] {
        var id := Pick(waiting.Keys);
        assert id in waiting;
      }
    }

    /** The listed requests are this worker's own entries. */
    ghost predicate Holds(requests: seq<Request>)
      reads this
    {
      forall i :: 0 <= i < |requests| ==> requests[i].id in waiting && waiting[requests[i].id] == requests[i]
    }

    lemma SlotOf(k: int)
      requires Valid()
      ensures BucketOf(bySize, k) == OfSize(waiting, k)
      ensures QueuedOfSize(Slots(), k) <= BucketOf(bySize, k).Keys
      ensures CountOf(counts, k) >= |QueuedOfSize(Slots(), k)|
    {
      assert BucketOf(bySize, k) == OfSize(waiting, k) && CountOf(counts, k) == |OfSize(waiting, k)|;
      SubsetSize(QueuedOfSize(Slots(), k), OfSize(waiting, k).Keys);
    }

    /** The first needed QUEUED requests of one bucket, in id order. */
    method TakeFromBucket(k: int, need: int) returns (chosen: seq<Request>)
      requires Valid() && need > 0
      ensures Holds(chosen) && TakesPrefix(Slots(), k, Ids(chosen))
      ensures |chosen| <= need
      ensures |chosen| < need ==> |QueuedOfSize(Slots(), k)| < need
    {
      chosen := [];
      var bucket := BucketOf(bySize, k);
      var rest := bucket.Keys;
      ghost var v := Slots();
      SlotOf(k);
      while rest != {} && |chosen| < need
        invariant rest <= bucket.Keys
        invariant forall x, y :: x in bucket && x !in rest && y in rest ==> x < y
        invariant Holds(chosen) && NoDuplicates(Ids(chosen))
        invariant forall x :: x in Ids(chosen) <==> x in QueuedOfSize(v, k) && x !in rest
        invariant |chosen| <= need
        decreases rest
      {
        var id := Least(rest);
        rest := rest - {id};
        var request := bucket[id];
        if request.ticket.status.Queued? {
          assert Ids(chosen + [request]) == Ids(chosen) + [id];
          chosen := chosen + [request];
        }
      }
      if |chosen| < need {
        SetOfDistinct(Ids(chosen));
        assert forall x :: x in Ids(chosen) <==> x in QueuedOfSize(v, k);
        assert (set id | id in Ids(chosen)) == QueuedOfSize(v, k);
      }
    }

    /** The cheap pre-check on the counts. It never turns down a combination the queue can serve. */
    method CountsSuffice(combination: Combination) returns (ok: bool)
      requires Valid() && Positive(combination)
      ensures ok <==> forall k :: k in combination ==> CountOf(counts, k) >= combination[k]
      ensures Available(Slots(), combination) ==> ok
    {
      var sizes := combination.Keys;
      while sizes != {}
        invariant sizes <= combination.Keys
        invariant forall k :: k in combination && k !in sizes ==> CountOf(counts, k) >= combination[k]
      {
        var k := Least(sizes);
        sizes := sizes - {k};
        if k !in counts || counts[k] < combination[k] {
          SlotOf(k);
          return false;
        }
      }
      return true;
    }

    /** The candidate for one combination, if every size has enough QUEUED tickets. */
    method BuildCandidate(combination: Combination) returns (candidate: Option<seq<Request>>)
      requires Valid() && Positive(combination)
      ensures candidate.Some? <==> combination != map[] && Available(Slots(), combination)
      ensures candidate.Some? ==>
        Holds(candidate.value) && IsCandidate(Slots(), combination, Ids(candidate.value))
    {
      hide PartialCandidate, TakesPrefix, QueuedOfSize, Slots, Valid, IsCandidate;
      ghost var v := Slots();
      var enough := CountsSuffice(combination);
      if !enough {
        return None;
      }

      var list: seq<Request> := [];
      var sizes := combination.Keys;
      PartialStarts(v, combination);
      assert combination.Keys - sizes == {};
      while sizes != {}
        invariant sizes <= combination.Keys
        invariant Holds(list) && PartialCandidate(v, combination, combination.Keys - sizes, Ids(list))
        invariant forall k :: k in combination && k !in sizes ==> |QueuedOfSize(v, k)| >= combination[k]
      {
        var k := Least(sizes);
        var chosen := TakeFromBucket(k, combination[k]);
        if |chosen| < combination[k] {
          return None;
        }
        CandidateGrows(v, combination, combination.Keys - sizes, Ids(list), k, Ids(chosen));
        PrefixIsAvailable(v, k, Ids(chosen));
        assert combination.Keys - sizes + {k} == combination.Keys - (sizes - {k});
        assert Ids(list + chosen) == Ids(list) + Ids(chosen);
        list := list + chosen;
        sizes := sizes - {k};
      }
      assert combination.Keys - sizes == combination.Keys;
      CandidateComplete(v, combination, Ids(list));
      if list == [] {
        return None;
      }
      return Some(list);
    }

    /** Total players and smallest ticket id of a list of requests. */
    method Measure(list: seq<Request>) returns (players: int, oldest: TicketId)
      requires Valid() && Holds(list) && Known(Slots(), Ids(list))
      ensures players == Sum(Sizes(Slots(), Ids(list)))
      ensures list != [] && (forall id :: id in waiting ==> id < MAX_TICKET_ID) ==> Oldest(oldest, Ids(list))
    {
      players, oldest := 0, MAX_TICKET_ID;
      ghost var sizes := Sizes(Slots(), Ids(list));
      for i := 0 to |list|
        invariant players == Sum(sizes[..i])
        invariant forall j :: 0 <= j < i ==> oldest <= list[j].id
        invariant oldest == MAX_TICKET_ID || exists j :: 0 <= j < i && list[j].id == oldest
      {
        assert sizes[..i + 1][..i] == sizes[..i];
        assert list[i].id in waiting && Ids(list)[i] == list[i].id;
        players := players + list[i].playerCount;
        oldest := if list[i].id <= oldest then list[i].id else oldest;
      }
      assert sizes[..|list|] == sizes;
      if list != [] && forall id :: id in waiting ==> id < MAX_TICKET_ID {
        assert list[0].id in waiting;
        var j :| 0 <= j < |list| && list[j].id == oldest;
        assert Ids(list)[j] == oldest;
      }
    }

    /** A match found so far, with its oldest ticket. */
    ghost predicate Found(n: int, best: seq<Request>, oldest: TicketId)
      reads this, set id | id in waiting :: waiting[id].ticket
    {
      best != [] ==> Holds(best) && Fills(Slots(), n, Ids(best)) && Oldest(oldest, Ids(best))
    }

    lemma OldestBelowMax(list: seq<Request>, oldest: TicketId)
      requires Holds(list) && Oldest(oldest, Ids(list))
      requires forall id :: id in waiting ==> id < MAX_TICKET_ID
      ensures oldest < MAX_TICKET_ID
    {
      var i :| 0 <= i < |list| && Ids(list)[i] == oldest;
      assert list[i].id in waiting;
    }

    method Consider(rule: Rule, ghost limit: nat, combination: Combination, best: seq<Request>, bestOldest: TicketId)
      returns (best': seq<Request>, bestOldest': TicketId)
      requires Valid() && rule.matchPlayerCount > 0 && SizesKnown(Slots(), rule.matchPlayerCount, limit)
      requires forall id :: id in waiting ==> id < MAX_TICKET_ID
      requires IsCombination(combination, rule.matchPlayerCount, limit)
      requires Found(rule.matchPlayerCount, best, bestOldest)
      ensures Found(rule.matchPlayerCount, best', bestOldest')
      ensures Settled(Slots(), rule.matchPlayerCount, combination, best' != [], bestOldest')
      ensures best != [] ==> best' != [] && bestOldest' <= bestOldest
    {
      hide Settled, Fills, SizesKnown, IsCandidate, IsCombination, Slots, Valid, Available;
      best', bestOldest' := best, bestOldest;
      ghost var v := Slots();
      CombinationIsPositive(combination, rule.matchPlayerCount, limit);
      var candidate := BuildCandidate(combination);
      if candidate.None? {
        SettledByNothing(v, rule.matchPlayerCount, limit, combination, best != [], bestOldest);
        return;
      }
      var list := candidate.value;
      CandidateFills(v, combination, rule.matchPlayerCount, limit, Ids(list));
      FillsFacts(v, rule.matchPlayerCount, Ids(list));
      var players, oldest := Measure(list);
      OldestBelowMax(list, oldest);
      if players == rule.matchPlayerCount && oldest != MAX_TICKET_ID && (best == [] || oldest < bestOldest) {
        best', bestOldest' := list, oldest;
      }
      SettledByCandidate(v, rule.matchPlayerCount, limit, combination, Ids(list), oldest, bestOldest');
    }

    /** One size's filed combinations in turn, keeping the best match found so far. */
    method ConsiderAll(rule: Rule, ghost limit: nat, k: int, best: seq<Request>, bestOldest: TicketId)
      returns (best': seq<Request>, bestOldest': TicketId)
      requires Valid() && rule.matchPlayerCount > 0 && SizesKnown(Slots(), rule.matchPlayerCount, limit)
      requires TableFor(rule.combinations, rule.matchPlayerCount, limit)
      requires forall id :: id in waiting ==> id < MAX_TICKET_ID
      requires Found(rule.matchPlayerCount, best, bestOldest)
      ensures Found(rule.matchPlayerCount, best', bestOldest')
      ensures forall g :: g in GetCombination(rule.combinations, k)
                          ==> Settled(Slots(), rule.matchPlayerCount, g, best' != [], bestOldest')
      ensures best != [] ==> best' != [] && bestOldest' <= bestOldest
    {
      hide Settled, Fills, Found, TableFor, SizesKnown, Slots, Valid;
      var n := rule.matchPlayerCount;
      best', bestOldest' := best, bestOldest;
      var list := GetCombination(rule.combinations, k);
      for i := 0 to |list|
        invariant Found(n, best', bestOldest')
        invariant best != [] ==> best' != [] && bestOldest' <= bestOldest
        invariant forall j :: 0 <= j < i ==> Settled(Slots(), n, list[j], best' != [], bestOldest')
      {
        FiledIsCombination(rule, limit, k, list[i]);
        ghost var found, oldest := best' != [], bestOldest';
        best', bestOldest' := Consider(rule, limit, list[i], best', bestOldest');
        StillSettled(Slots(), n, found, oldest, best' != [], bestOldest');
      }
    }

    /** The rule's table is the combination table, and every waiting request has a size it knows. */
    ghost predicate ServedBy(rule: Rule, limit: nat)
      reads this, set id | id in waiting :: waiting[id].ticket
    {
      && rule.matchPlayerCount > 0 && TableFor(rule.combinations, rule.matchPlayerCount, limit)
      && SizesKnown(Slots(), rule.matchPlayerCount, limit)
    }

    /** Selection agrees with a brute-force search over all sets of QUEUED waiting tickets: it finds a
        match whenever some set of them adds up to the match size, what it finds is such a set, and no
        other such set has an older ticket. */
    method MakeMatchmaking(rule: Rule, ghost limit: nat) returns (best: seq<Request>)
      requires Valid() && (waiting != map[] ==> ServedBy(rule, limit))
      requires forall id :: id in waiting ==> id < MAX_TICKET_ID
      ensures best == [] <==> NoneFills(Slots(), rule.matchPlayerCount)
      ensures best != [] ==> Holds(best) && FillsBest(Slots(), rule.matchPlayerCount, Ids(best))
    {
      hide Settled, Found, Fills, FillsBest, TableFor, SizesKnown, Slots, Valid;
      best := [];
      var n := rule.matchPlayerCount;
      if waiting == map[] {
        NobodyFills(n);
        return;
      }
      var bestOldest := MAX_TICKET_ID;
      NothingFound(n, bestOldest);
      var sizes := counts.Keys;
      while sizes != {}
        invariant sizes <= counts.Keys
        invariant Found(n, best, bestOldest)
        invariant forall k, g :: k in counts && k !in sizes && g in GetCombination(rule.combinations, k)
                                 ==> Settled(Slots(), n, g, best != [], bestOldest)
      {
        var k := AnyKey(sizes);
        sizes := sizes - {k};
        ghost var found, oldest := best != [], bestOldest;
        best, bestOldest := ConsiderAll(rule, limit, k, best, bestOldest);
        StillSettled(Slots(), n, found, oldest, best != [], bestOldest);
      }
      EverySizeCounted(rule, limit, best != [], bestOldest);
      FoundMeans(n, best, bestOldest);
      SelectionConcludes(Slots(), n, limit, rule.combinations, Ids(best), bestOldest);
    }

    lemma NobodyFills(n: int)
      requires waiting == map[]
      ensures NoneFills(Slots(), n)
    {
      forall ids ensures !Fills(Slots(), n, ids) {
        if ids != [] {
          assert ids[0] !in Slots();
        }
      }
    }

    lemma NothingFound(n: int, oldest: TicketId)
      ensures Found(n, [], oldest)
    {
    }

    lemma FoundMeans(n: int, best: seq<Request>, oldest: TicketId)
      requires Found(n, best, oldest)
      ensures best != [] ==> Holds(best) && Fills(Slots(), n, Ids(best)) && Oldest(oldest, Ids(best))
    {
    }

    lemma EverySizeCounted(rule: Rule, limit: nat, found: bool, oldest: TicketId)
      requires Valid() && rule.matchPlayerCount >= 0 && SizesKnown(Slots(), rule.matchPlayerCount, limit)
      requires forall k, g :: k in counts && g in GetCombination(rule.combinations, k)
                              ==> Settled(Slots(), rule.matchPlayerCount, g, found, oldest)
      ensures forall k, g :: k in rule.combinations && (exists x :: x in Slots() && Slots()[x].size == k)
                             && g in rule.combinations[k]
                             ==> Settled(Slots(), rule.matchPlayerCount, g, found, oldest)
    {
      forall k, g | k in rule.combinations && (exists x :: x in Slots() && Slots()[x].size == k)
                    && g in rule.combinations[k]
        ensures Settled(Slots(), rule.matchPlayerCount, g, found, oldest)
      {
        var x :| x in Slots() && Slots()[x].size == k;
        assert x in OfSize(waiting, k);
        assert CountOf(counts, k) == |OfSize(waiting, k)|;
        assert k in counts && g in GetCombination(rule.combinations, k);
      }
    }
  }

  lemma FillsFacts(v: View, n: int, ids: seq<TicketId>)
    requires Fills(v, n, ids)
    ensures ids != [] && Known(v, ids) && Sum(Sizes(v, ids)) == n
  {
  }

  lemma CombinationIsPositive(g: Combination, total: int, limit: nat)
    requires IsCombination(g, total, limit)
    ensures Positive(g)
  {
  }

  lemma FiledIsCombination(rule: Rule, limit: nat, k: int, g: Combination)
    requires rule.matchPlayerCount >= 0 && TableFor(rule.combinations, rule.matchPlayerCount, limit)
    requires g in GetCombination(rule.combinations, k)
    ensures IsCombination(g, rule.matchPlayerCount, limit)
  {
  }

  lemma StillSettled(v: View, n: int, found: bool, oldest: TicketId, found': bool, oldest': TicketId)
    requires found ==> found' && oldest' <= oldest
    ensures forall g :: Settled(v, n, g, found, oldest) ==> Settled(v, n, g, found', oldest')
  {
    forall g | Settled(v, n, g, found, oldest) ensures Settled(v, n, g, found', oldest') {
      SettledStays(v, n, g, found, found', oldest, oldest');
    }
  }

  /** Some key of an unordered map: callers can rely on no particular order. */
  method AnyKey(keys: set<int>) returns (k: int)
    requires keys != {}
    ensures k in keys
  {
    k := Least(keys);
  }

  ghost predicate Positive(g: Combination) {
    forall k :: k in g ==> g[k] > 0
  }

  lemma PrefixIsAvailable(v: View, k: int, ids: seq<TicketId>)
    requires TakesPrefix(v, k, ids)
    ensures |QueuedOfSize(v, k)| >= |ids|
  {
    SetOfDistinct(ids);
    SubsetSize((set id | id in ids), QueuedOfSize(v, k));
  }

  lemma PartialStarts(v: View, g: Combination)
    ensures PartialCandidate(v, g, {}, Ids([]))
  {
  }

  lemma CandidateComplete(v: View, g: Combination, ids: seq<TicketId>)
    requires PartialCandidate(v, g, g.Keys, ids) && Positive(g)
    ensures IsCandidate(v, g, ids)
    ensures ids == [] <==> g == map[]
  {
    if g != map[] {
      var k := Pick(g.Keys);
      assert TakesOldest(v, ids, k, g[k]);
      var x := Pick(ChosenOfSize(v, ids, k));
      assert x in ids;
    }
    if ids != [] {
      assert v[ids[0]].size in g;
    }
  }
}
