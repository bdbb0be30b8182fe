/** The solo worker group: routing to workers, and its critical sections as steps of SoloProtocol. */
module SoloGroup {
  import opened Tickets
  import opened Ordered
  import opened Combinations
  import opened CombinationSearch
  import opened PartyQueue
  import opened SoloLane
  import opened SoloProtocol
  import opened SoloWorkers

  ghost predicate IsIdle(w: SoloWorker, n: nat)
    reads w
  {
    w.Valid() && w.matchPlayerCount == n && w.waiting == map[] && w.progressing == map[]
  }

  /** A match size as it compares with the size of a list, which is an unsigned number. */
  function AsListSize(n: int): nat {
    if n >= 0 then n else n % 0x1_0000_0000_0000_0000
  }

  class SoloWorkerGroup {
    const rule: Rule
    ghost const limit: nat
    const size: nat
    const workers: seq<SoloWorker>
    /** Every request ever made for this group, those QUEUED on their way to a worker, and what the run has
        brought about so far. */
    ghost var requests: map<TicketId, Request>
    ghost var arriving: set<TicketId>
    ghost var matches: seq<set<TicketId>>
    ghost var cancelled: set<TicketId>
    ghost var broken: bool

    /** A group of idle workers for one rule. */
    constructor (matchPlayerCount: int, partyLimit: int, workerCount: int)
      requires workerCount > 0
      ensures Valid() && rule.matchPlayerCount == matchPlayerCount && |workers| == workerCount
      ensures limit == (if partyLimit > 0 then partyLimit else 0)
      ensures matchPlayerCount > 0 && partyLimit > 0 ==> TableFor(rule.combinations, matchPlayerCount, partyLimit)
      ensures matchPlayerCount <= 0 || partyLimit <= 0 ==> rule.combinations == map[]
      ensures forall i :: 0 <= i < workerCount ==> workers[i].matchPlayerCount == size
      ensures size == if matchPlayerCount >= 0 then matchPlayerCount else matchPlayerCount % 0x1_0000_0000_0000_0000
      ensures Initial(State()) && (matchPlayerCount > 0 ==> SoloSane(State(), size))
    {
      var table := MakeCombination(matchPlayerCount, partyLimit);
      var listSize := AsListSize(matchPlayerCount);
      var idle: seq<SoloWorker> := [];
      for i := 0 to workerCount
        invariant |idle| == i && forall j :: 0 <= j < i ==> fresh(idle[j]) && IsIdle(idle[j], listSize)
        invariant forall j, k :: 0 <= j < k < i ==> idle[j] != idle[k]
      {
        var worker := new SoloWorker(listSize);
        idle := idle + [worker];
      }
      rule := Rule(matchPlayerCount, table);
      limit := if partyLimit > 0 then partyLimit else 0;
      size := listSize;
      workers := idle;
      requests, arriving, matches, cancelled, broken := map[], {}, [], {}, false;
    }

    ghost predicate Shape()
      reads this
    {
      && workers != []
      && RuleSane() && size == AsListSize(rule.matchPlayerCount)
      && (forall i, j :: 0 <= i < j < |workers| ==> workers[i] != workers[j])
      && (forall i :: 0 <= i < |workers| ==> workers[i].matchPlayerCount == size)
      && (forall id :: id in requests ==> requests[id].id == id && requests[id].ticket.id == id && id >= 0)
    }

    /** The group holds the table for its rule, which is empty only without a positive size and limit. */
    ghost predicate RuleSane()
      reads this
    {
      if rule.matchPlayerCount > 0 && limit > 0 then TableFor(rule.combinations, rule.matchPlayerCount, limit)
      else rule.combinations == map[]
    }

    /** So the sizes it knows are exactly 1..min(match size, party limit). */
    lemma SizesLetIn(k: int)
      requires Valid()
      ensures k in rule.combinations <==> 1 <= k <= Min(rule.matchPlayerCount, limit)
    {
    }

    ghost predicate Valid()
      reads this, set w | w in workers
    {
      Shape() && forall i :: 0 <= i < |workers| ==> workers[i].Valid() && Sublist(workers[i].Entries(), requests)
    }

    ghost predicate Mine(r: Request)
      reads this
    {
      r.id in requests && requests[r.id] == r
    }

    ghost function Lanes(): seq<Lane>
      reads this, set w | w in workers
    {
      seq(|workers|, i requires 0 <= i < |workers| reads set w | w in workers => workers[i].LaneNow())
    }

    ghost function Statuses(): map<TicketId, Status>
      reads this, set id | id in requests :: requests[id].ticket
    {
      map id | id in requests :: requests[id].ticket.status
    }

    ghost function State(): Solo
      reads this, set w | w in workers, set id | id in requests :: requests[id].ticket
    {
      Solo(Lanes(), Statuses(), arriving, matches, cancelled, broken)
    }

    lemma OwnTicket(r: Request)
      requires Shape() && Mine(r)
      ensures r.ticket.id == r.id
      ensures forall id :: id in requests && id != r.id ==> requests[id].ticket != r.ticket
    {
    }

    /** Worker i has changed; every other worker is as before. */
    twostate lemma OneWorkerChanged(i: int)
      requires 0 <= i < |workers| && old(Valid()) && Shape()
      requires requests == old(requests)
      requires workers[i].Valid() && Sublist(workers[i].Entries(), requests)
      requires forall j :: 0 <= j < |workers| && workers[j] != workers[i] ==> unchanged(workers[j])
      ensures Valid() && Lanes() == old(Lanes())[i := workers[i].LaneNow()]
    {
      forall j | 0 <= j < |workers|
        ensures workers[j].Valid() && Sublist(workers[j].Entries(), requests)
        ensures j != i ==> workers[j].LaneNow() == old(workers[j].LaneNow())
      {
        if j != i {
          assert workers[j] != workers[i];
          assert old(workers[j].Valid() && Sublist(workers[j].Entries(), requests));
        }
      }
    }

    /** Only r's ticket has changed, if any. */
    twostate lemma OneTicketChanged(r: Request)
      requires Shape() && Mine(r) && requests == old(requests)
      requires forall id :: id in requests && requests[id].ticket != r.ticket ==> unchanged(requests[id].ticket)
      ensures Statuses() == old(Statuses())[r.id := r.ticket.status]
      ensures r.ticket.status == old(r.ticket.status) ==> Statuses() == old(Statuses())
    {
      OwnTicket(r);
      forall id | id in requests
        ensures id in Statuses() && Statuses()[id] == old(Statuses())[r.id := r.ticket.status][id]
      {
        assert id != r.id ==> requests[id].ticket != r.ticket && unchanged(requests[id].ticket);
      }
    }

    /** A request for a new ticket, not yet enqueued. */
    method Register(t: Ticket) returns (r: Request)
      requires Valid() && t.id !in requests && t.id >= 0 && t.status == Unset
      modifies `requests
      ensures Valid() && fresh(r) && r.ticket == t && Mine(r)
      ensures State() == old(State()).(tickets := old(State()).tickets[t.id := Unset])
    {
      hide OwnKeyed;
      r := new Request(t);
      ghost var tickets, lanes := Statuses(), Lanes();
      forall i | 0 <= i < |workers|
        ensures workers[i].Valid() && Sublist(workers[i].Entries(), requests[t.id := r])
      {
        assert old(workers[i].Valid() && Sublist(workers[i].Entries(), requests));
        SublistOfMore(workers[i].Entries(), requests, r);
      }
      requests := requests[t.id := r];
      assert Statuses() == tickets[t.id := Unset];
      assert Lanes() == lanes;
    }

    /** The change to QUEUED, outside the worker's lock. */
    method MarkQueued(r: Request) returns (ok: bool)
      requires Valid() && Mine(r)
      modifies this`arriving, r.ticket`status
      ensures Valid()
      ensures ok <==> old(r.ticket.status).Unset?
      ensures r.ticket.status == if ok then Queued else old(r.ticket.status)
      ensures State() == AfterMark(old(State()), r.id)
    {
      OwnTicket(r);
      ok := r.ticket.ChangeStatus(Queued);
      if ok {
        arriving := arriving + {r.id};
      }
      OneTicketChanged(r);
      assert Lanes() == old(Lanes());
    }

    /** The worker's side of the enqueue: a request that is turned away is erased again. */
    method InsertAt(i: int, r: Request) returns (ok: bool)
      requires Valid() && Mine(r) && 0 <= i < |workers|
      requires r.id !in workers[i].waiting && r.id !in workers[i].progressing
      modifies workers[i]
      ensures Valid()
      ensures ok <==> r.ticket.status.Queued?
      ensures Lanes() == old(Lanes())[i := Entered(old(Lanes())[i], r.id, ok)]
    {
      hide OwnKeyed, Sublist;
      OwnTicket(r);
      EntryAdded(workers[i].waiting, workers[i].progressing, r, requests);
      EntryDropped(workers[i].waiting, workers[i].progressing, r.id, requests);
      ok := workers[i].EnqueueJobRequest(r);
      if !ok {
        var _ := workers[i].Erase(r.ticket);
      }
      OneWorkerChanged(i);
    }

    /** The rest of the enqueue, under the worker's lock. */
    method InsertMarked(r: Request) returns (ok: bool)
      requires Valid() && Mine(r) && r.id in arriving && SoloSane(State(), size)
      modifies this`arriving, set w | w in workers
      ensures Valid()
      ensures ok <==> r.ticket.status.Queued?
      ensures State() == AfterInsert(old(State()), r.id)
    {
      hide SoloSane, WorkerOf, OwnKeyed, Sublist, AfterInsert, Entered;
      ghost var s := State();
      assert s.tickets[r.id] == r.ticket.status;
      var i := WorkerOf(|workers|, r.id);
      ArrivingNotHeld(i, r.id);
      ok := InsertAt(i, r);
      arriving := arriving - {r.id};
      InsertCompletes(s, State(), r.id, ok);
    }

    lemma ArrivingNotHeld(i: int, id: TicketId)
      requires Valid() && SoloSane(State(), size) && id in arriving && 0 <= i < |workers|
      ensures id !in workers[i].waiting && id !in workers[i].progressing
    {
      NotHeld(State(), size, id, i);
      assert State().lanes[i] == workers[i].LaneNow();
    }

    /** Both halves in a row, for a request of a size the rule knows. */
    method EnqueueJobRequest(r: Request) returns (ok: bool)
      requires Valid() && Mine(r) && SoloSane(State(), size)
      modifies this`arriving, r.ticket`status, set w | w in workers
      ensures Valid()
      ensures ok <==> 1 <= r.playerCount <= Min(rule.matchPlayerCount, limit) && old(r.ticket.status).Unset?
      ensures ok ==> r.ticket.status.Queued?
      ensures State() == if ok then AfterInsert(AfterMark(old(State()), r.id), r.id) else old(State())
    {
      ghost var n := size;
      SizesLetIn(r.playerCount);
      hide SoloSane, AfterInsert, Shape, Valid, State, TableFor, RuleSane;
      if r.playerCount !in rule.combinations {
        return false;
      }
      ghost var s := State();
      var marked := MarkQueued(r);
      if !marked {
        return false;
      }
      MarkedSane(s, n, r.id);
      ok := InsertMarked(r);
    }

    method CancelMatchTicket(r: Request) returns (ok: bool)
      requires Valid() && Mine(r)
      modifies this`cancelled, r.ticket`status, set w | w in workers
      ensures Valid()
      ensures ok <==> CanChangeStatus(old(r.ticket.status), Cancelled)
      ensures State() == AfterCancel(old(State()), r.id)
    {
      hide WorkerOf, OwnKeyed, Sublist;
      OwnTicket(r);
      var i := WorkerOf(|workers|, r.id);
      EntryDropped(workers[i].waiting, workers[i].progressing, r.id, requests);
      ok := workers[i].Cancel(r.ticket);
      if ok {
        cancelled := cancelled + {r.id};
      }
      OneTicketChanged(r);
      OneWorkerChanged(i);
    }

    lemma HeldAreMine(i: int)
      requires Valid() && 0 <= i < |workers|
      ensures Sublist(workers[i].Entries(), requests)
      ensures workers[i].Entries().Keys == Held(Lanes()[i])
    {
    }

    lemma OthersTickets(entries: map<TicketId, Request>)
      requires Shape() && Sublist(entries, requests)
      ensures forall id, x :: id in requests && id !in entries && x in entries ==>
        requests[id].ticket != entries[x].ticket
    {
    }

    /** One job at worker i, as the group sees it. */
    method JobAt(i: int) returns (complete: bool, all: bool, matched: map<TicketId, Request>)
      requires Valid() && 0 <= i < |workers| && JobMatch(Lanes()[i], size) <= Held(Lanes()[i])
      modifies workers[i], set id | id in requests :: requests[id].ticket
      ensures Valid() && Lanes() == old(Lanes())[i := AfterJob(old(Lanes())[i], size)]
      ensures complete <==> Completes(old(Lanes())[i], size)
      ensures matched.Keys == JobMatch(old(Lanes())[i], size)
      ensures all <==> AllCanSearch(old(Statuses()), matched.Keys)
      ensures Statuses() == Searched(old(Statuses()), matched.Keys)
    {
      hide OwnKeyed, AfterJob, JobMatch, Completes, AllCanSearch, Searched;
      ghost var tickets := Statuses();
      ghost var entries, held := workers[i].Entries(), workers[i].StatusesHeld();
      HeldAreMine(i);
      OthersTickets(entries);
      complete, all, matched := workers[i].DoWorkerAsyncJob();
      HeldCanSearch(tickets, held, matched.Keys);
      forall id | id in requests ensures Statuses()[id] == Searched(tickets, matched.Keys)[id] {
        HeldSearched(tickets, held, matched.Keys, id);
        if id in entries {
          assert entries[id] == requests[id];
        }
      }
      OneWorkerChanged(i);
    }

    /** The job step of the protocol: in a sane state a completed match always goes through. */
    method StepJob(i: int) returns (matched: map<TicketId, Request>)
      requires Valid() && SoloSane(State(), size) && 0 <= i < |workers|
      modifies this`matches, workers[i], set id | id in requests :: requests[id].ticket
      ensures Valid()
      ensures State() == AfterSoloJob(old(State()), size, i)
      ensures matched.Keys == JobMatch(old(Lanes())[i], size)
    {
      hide SoloSane, WorkerOf, AfterJob, JobMatch, Completes, AllCanSearch, Searched, AfterSoloJob;
      ghost var s, n := State(), size;
      JobNeverFails(s, n, i);
      var complete, all;
      complete, all, matched := JobAt(i);
      // Every ticket of a match is still QUEUED here, so the failure arm is unreachable.
      assert all;
      if complete {
        matches := matches + [matched.Keys];
      }
      JobCompletes(s, State(), n, i);
    }

    /** One turn of worker i: with as many tickets at hand as a match has, just that many are matched, and are
        SEARCHING; with fewer none is. No other status changes. */
    method DoWorkerAsyncJob(i: int) returns (matched: map<TicketId, Request>)
      requires Valid() && SoloSane(State(), size) && 0 <= i < |workers|
      modifies this`matches, workers[i], set id | id in requests :: requests[id].ticket
      ensures Valid()
      ensures State() == AfterSoloJob(old(State()), size, i)
      ensures matched.Keys == JobMatch(old(Lanes())[i], size)
      ensures |matched.Keys| == if |Held(old(Lanes())[i])| >= size then size else 0
      ensures State().tickets.Keys == old(State()).tickets.Keys
      ensures forall id :: id in old(State()).tickets ==>
                State().tickets[id] == if id in matched then Searching else old(State()).tickets[id]
    {
      LanesMean();
      hide SoloSane, JobMatch, AfterSoloJob, Valid, State, Lanes;
      ghost var s := State();
      matched := StepJob(i);
      JobMeansForAll(s, size, i);
    }

    lemma LanesMean()
      ensures State().lanes == Lanes() && |Lanes()| == |workers|
    {
    }

    lemma JobAvailable(i: int)
      requires Valid() && SoloSane(State(), size) && 0 <= i < |workers|
      ensures LaneSane(Lanes()[i], size)
      ensures workers[i].IsWorkerJobAvailable() <==> Lanes()[i].waiting != {}
    {
      assert LaneSane(State().lanes[i], size);
    }

    /** A worker left alone runs jobs while anybody waits: on T tickets it makes exactly T div n matches of
        n tickets each and is left with T mod n in progress; it loses none and matches none twice. */
    method RunUntilIdle(i: int) returns (made: seq<set<TicketId>>)
      requires Valid() && SoloSane(State(), size) && 0 <= i < |workers| && size > 0
      modifies this`matches, workers[i], set id | id in requests :: requests[id].ticket
      ensures Valid() && SoloSane(State(), size)
      ensures Emptied(old(Lanes())[i], size, Lanes()[i], made)
      ensures |made| == |Held(old(Lanes())[i])| / size
      ensures |Lanes()[i].progressing| == |Held(old(Lanes())[i])| % size
    {
      hide SoloSane, AfterSoloJob, JobMatch, AfterJob, LaneSane, Emptied, Draining;
      ghost var n := size;
      JobAvailable(i);
      ghost var lane := Lanes()[i];
      made := [];
      DrainStarts(lane, n);
      while workers[i].IsWorkerJobAvailable()
        invariant Valid() && SoloSane(State(), n)
        invariant LaneSane(Lanes()[i], n)
        invariant workers[i].IsWorkerJobAvailable() <==> Lanes()[i].waiting != {}
        invariant Draining(lane, Lanes()[i], n, made)
        decreases |Lanes()[i].waiting|
      {
        ghost var s, l := State(), Lanes()[i];
        DrainOne(lane, l, n, made);
        var matched := DoWorkerAsyncJob(i);
        JobKeepsSane(s, n, i);
        JobAvailable(i);
        if matched != map[] {
          made := made + [matched.Keys];
        }
      }
      DrainDone(lane, Lanes()[i], n, made);
    }
  }

  /** A drain of the first lane has come to the second, with these matches made. */
  ghost predicate Draining(lane: Lane, now: Lane, n: nat, made: seq<set<TicketId>>) {
    && n > 0 && LaneSane(lane, n) && LaneSane(now, n)
    && Drained(lane, n) == (Drained(now, n).0, made + Drained(now, n).1)
  }

  lemma DrainStarts(lane: Lane, n: nat)
    requires n > 0 && LaneSane(lane, n)
    ensures Draining(lane, lane, n, [])
  {
    assert [] + Drained(lane, n).1 == Drained(lane, n).1;
  }

  lemma DrainOne(lane: Lane, now: Lane, n: nat, made: seq<set<TicketId>>)
    requires Draining(lane, now, n, made) && now.waiting != {}
    ensures |AfterJob(now, n).waiting| < |now.waiting|
    ensures var m := JobMatch(now, n);
            Draining(lane, AfterJob(now, n), n, if m == {} then made else made + [m])
  {
    hide AfterJob, JobMatch;
    JobShrinks(now, n);
    var rest, m := Drained(AfterJob(now, n), n), JobMatch(now, n);
    assert made + ([m] + rest.1) == made + [m] + rest.1;
  }

  lemma DrainDone(lane: Lane, now: Lane, n: nat, made: seq<set<TicketId>>)
    requires Draining(lane, now, n, made) && now.waiting == {}
    ensures Emptied(lane, n, now, made)
    ensures |made| == |Held(lane)| / n && |now.progressing| == |Held(lane)| % n
  {
    assert Drained(now, n) == (now, []);
    assert made + [] == made;
    DrainedConserves(lane, n);
    DrainedCounts(lane, n);
  }

  lemma JobKeepsSane(s: Solo, n: nat, i: int)
    requires SoloSane(s, n) && 0 <= i < |s.lanes|
    ensures SoloSane(AfterSoloJob(s, n, i), n)
    ensures AfterSoloJob(s, n, i).lanes == s.lanes[i := AfterJob(s.lanes[i], n)]
  {
    StaysSane(s, n, Job(i));
  }

  lemma JobCompletes(s: Solo, s': Solo, n: nat, i: int)
    requires 0 <= i < |s.lanes| && AllCanSearch(s.tickets, JobMatch(s.lanes[i], n))
    requires var m := JobMatch(s.lanes[i], n);
             s' == s.(lanes := s.lanes[i := AfterJob(s.lanes[i], n)], tickets := Searched(s.tickets, m),
                      matches := if Completes(s.lanes[i], n) then s.matches + [m] else s.matches)
    ensures s' == AfterSoloJob(s, n, i)
  {
    NothingSearched(s.tickets);
    NothingMatched(s.lanes[i], n);
  }

  /** The worker's own view of its tickets' statuses is the group's. */
  lemma HeldCanSearch(tickets: map<TicketId, Status>, held: map<TicketId, Status>, m: set<TicketId>)
    requires m <= held.Keys
    requires forall id :: id in held ==> id in tickets && held[id] == tickets[id]
    ensures AllCanSearch(tickets, m) <==> AllCanSearch(held, m)
  {
  }

  lemma HeldSearched(tickets: map<TicketId, Status>, held: map<TicketId, Status>, m: set<TicketId>, id: TicketId)
    requires m <= held.Keys && id in tickets
    requires forall x :: x in held ==> x in tickets && held[x] == tickets[x]
    ensures id in Searched(tickets, m)
    ensures Searched(tickets, m)[id] == if id in held then Searched(held, m)[id] else tickets[id]
  {
  }

  lemma SublistOfMore(part: map<TicketId, Request>, all: map<TicketId, Request>, r: Request)
    requires Sublist(part, all) && r.id !in all
    ensures Sublist(part, all[r.id := r])
  {
  }

  lemma EntryAdded(waiting: map<TicketId, Request>, progressing: map<TicketId, Request>, r: Request,
                   all: map<TicketId, Request>)
    requires r.id in all && all[r.id] == r && Sublist(waiting + progressing, all)
    ensures Sublist(waiting[r.id := r] + progressing, all)
    ensures waiting[r.id := r].Keys == waiting.Keys + {r.id}
  {
  }

  lemma EntryDropped(waiting: map<TicketId, Request>, progressing: map<TicketId, Request>, id: TicketId,
                     all: map<TicketId, Request>)
    requires Sublist(waiting + progressing, all)
    ensures Sublist((waiting - {id}) + (progressing - {id}), all)
  {
  }

  lemma InsertCompletes(s: Solo, s': Solo, id: TicketId, ok: bool)
    requires s.lanes != [] && id in s.tickets && id !in s.lanes[LaneOf(s, id)].waiting
    requires ok <==> s.tickets[id].Queued?
    requires s' == s.(arriving := s.arriving - {id},
                      lanes := s.lanes[LaneOf(s, id) := Entered(s.lanes[LaneOf(s, id)], id, ok)])
    ensures s' == AfterInsert(s, id)
  {
  }

  lemma MarkedSane(s: Solo, n: nat, id: TicketId)
    requires SoloSane(s, n) && id in s.tickets
    ensures SoloSane(AfterMark(s, id), n)
  {
    StaysSane(s, n, SoloProtocol.MarkQueued(id));
  }
}
