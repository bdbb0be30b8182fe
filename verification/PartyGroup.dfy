/** The party worker group: its critical sections as methods on the worker, request and ticket objects,
    each proved to be the corresponding step of PartyProtocol. */
module PartyGroup {
  import opened Tickets
  import opened Ordered
  import opened Combinations
  import opened CombinationSearch
  import opened Selection
  import opened TimedQueue
  import opened PartyQueue
  import opened PartyProtocol

  ghost predicate IsIdle(w: PartyWorker)
    reads w
  {
    w.Valid() && w.waiting == map[]
  }

  ghost function RequestIds(q: Queue<Request>): Queue<TicketId> {
    seq(|q|, i requires 0 <= i < |q| => (q[i].0, q[i].1.id))
  }

  class PartyWorkerGroup {
    const rule: Rule
    ghost const limit: nat
    const workers: seq<PartyWorker>
    var bookings: Queue<Request>
    /** Every request ever made for this group, and those that have reached a worker. */
    ghost var requests: map<TicketId, Request>
    ghost var arrived: set<TicketId>

    /** A group of idle workers for one rule. */
    constructor (matchPlayerCount: int, partyLimit: int, workerCount: int)
      requires workerCount > 0
      ensures Valid() && rule.matchPlayerCount == matchPlayerCount && |workers| == workerCount
      ensures limit == (if partyLimit > 0 then partyLimit else 0)
      ensures matchPlayerCount > 0 && partyLimit > 0 ==> TableFor(rule.combinations, matchPlayerCount, partyLimit)
      ensures matchPlayerCount <= 0 || partyLimit <= 0 ==> rule.combinations == map[]
      ensures State() == Queues(seq(workerCount, _ => {}), map[], [])
      ensures QueuesSane(State()) && BookingsSane(State())
    {
      var table := MakeCombination(matchPlayerCount, partyLimit);
      var idle: seq<PartyWorker> := [];
      for i := 0 to workerCount
        invariant |idle| == i && forall j :: 0 <= j < i ==> fresh(idle[j]) && IsIdle(idle[j])
        invariant forall j, k :: 0 <= j < k < i ==> idle[j] != idle[k]
      {
        var worker := new PartyWorker();
        idle := idle + [worker];
      }
      rule := Rule(matchPlayerCount, table);
      limit := if partyLimit > 0 then partyLimit else 0;
      workers, bookings := idle, [];
      requests, arrived := map[], {};
      new;
      IdleGroup(workerCount);
    }

    lemma IdleGroup(workerCount: nat)
      requires |workers| == workerCount && forall i :: 0 <= i < workerCount ==> IsIdle(workers[i])
      requires requests == map[] && bookings == []
      ensures State() == Queues(seq(workerCount, _ => {}), map[], [])
    {
      forall i | 0 <= i < workerCount ensures Waiters()[i] == {} {
        assert IsIdle(workers[i]);
      }
      assert Waiters() == seq(workerCount, _ => {});
    }

    ghost predicate Valid()
      reads this, set w | w in workers
    {
      Shape() && forall i :: 0 <= i < |workers| ==> workers[i].Valid() && Serves(workers[i].waiting)
    }

    ghost predicate Shape()
      reads this
    {
      && workers != []
      && (forall i, j :: 0 <= i < j < |workers| ==> workers[i] != workers[j])
      && RuleSane()
      && Known(requests)
      && (forall i :: 0 <= i < |bookings| ==> Bookable(bookings[i].1))
      && arrived <= requests.Keys
    }

    /** The group holds the table for its rule, which is empty only without a positive size and limit. */
    ghost predicate RuleSane()
      reads this
    {
      if rule.matchPlayerCount > 0 && limit > 0 then TableFor(rule.combinations, rule.matchPlayerCount, limit)
      else rule.combinations == map[]
    }

    /** So the sizes it knows are exactly 1..min(match size, party limit). */
    lemma SizesLetIn(k: int)
      requires Valid()
      ensures k in rule.combinations <==> 1 <= k <= Min(rule.matchPlayerCount, limit)
    {
    }

    ghost predicate Known(requests: map<TicketId, Request>) {
      forall id :: id in requests ==> requests[id].id == id && requests[id].WellFormed() && 0 <= id < MAX_TICKET_ID
    }

    ghost predicate Mine(r: Request)
      reads this
    {
      r.id in requests && requests[r.id] == r
    }

    /** An enqueued request of a size the rule knows. */
    ghost predicate Bookable(r: Request)
      reads this
    {
      Mine(r) && r.id in arrived && r.playerCount in rule.combinations
    }

    /** A worker only holds this group's requests, of sizes the rule knows. */
    ghost predicate Serves(waiting: map<TicketId, Request>)
      reads this
    {
      forall id :: id in waiting ==>
        id in arrived && id in requests && waiting[id] == requests[id]
        && waiting[id].playerCount in rule.combinations
    }

    ghost function StateOf(id: TicketId): TicketState
      reads this, set x | x in requests :: requests[x], set x | x in requests :: requests[x].ticket
      requires id in requests
    {
      var r := requests[id];
      TicketState(r.playerCount, r.ticket.status, r.baseWorker, r.expansionLevel, id in arrived)
    }

    ghost function Waiters(): seq<set<TicketId>>
      reads this, set w | w in workers
    {
      seq(|workers|, i requires 0 <= i < |workers| reads set w | w in workers => workers[i].waiting.Keys)
    }

    ghost function TicketStates(): map<TicketId, TicketState>
      reads this, set x | x in requests :: requests[x], set x | x in requests :: requests[x].ticket
    {
      map id | id in requests :: StateOf(id)
    }

    ghost function State(): Queues
      reads this, set w | w in workers
      reads set x | x in requests :: requests[x], set x | x in requests :: requests[x].ticket
    {
      Queues(Waiters(), TicketStates(), RequestIds(bookings))
    }

    ghost predicate AllMine(list: seq<Request>)
      reads this
    {
      forall i :: 0 <= i < |list| ==> Mine(list[i])
    }

    lemma MineFacts(r: Request)
      requires Shape() && Mine(r)
      ensures r.WellFormed() && 0 <= r.id < MAX_TICKET_ID
    {
    }

    lemma ServesOneMore(waiting: map<TicketId, Request>, r: Request)
      requires Serves(waiting) && Mine(r) && r.id in arrived && r.playerCount in rule.combinations
      ensures Serves(waiting[r.id := r])
      ensures waiting[r.id := r].Keys == waiting.Keys + {r.id}
      ensures r.id in waiting ==> waiting.Keys == waiting.Keys + {r.id}
    {
    }

    lemma ServesFacts(waiting: map<TicketId, Request>, r: Request)
      requires Serves(waiting) && Mine(r)
      ensures r.id in waiting ==> waiting[r.id] == r
      ensures Serves(waiting - {r.id})
    {
    }

    /** A request for a new ticket, not yet enqueued. */
    method Register(t: Ticket) returns (r: Request)
      requires Valid() && t.id !in requests && 0 <= t.id < MAX_TICKET_ID && t.status == Unset
      modifies `requests
      ensures Valid() && fresh(r) && r.ticket == t && Mine(r) && r.id == t.id && r.id !in arrived
      ensures State() == old(State()).(tickets :=
                old(State()).tickets[t.id := TicketState(|t.players|, Unset, 0, 0, false)])
    {
      r := MakeRequest(t);
      AddRequest(r);
    }

    method MakeRequest(t: Ticket) returns (r: Request)
      requires Valid()
      ensures Valid() && fresh(r) && r.ticket == t && r.WellFormed() && r.baseWorker == 0 && r.expansionLevel == 0
      ensures State() == old(State())
    {
      hide TableFor, Known;
      r := new Request(t);
      forall i | 0 <= i < |workers|
        ensures workers[i].Valid() && Serves(workers[i].waiting) && workers[i].waiting == old(workers[i].waiting)
      {
        assert old(workers[i].Valid() && Serves(workers[i].waiting));
      }
      assert Waiters() == old(Waiters());
      forall id | id in requests ensures StateOf(id) == old(StateOf(id)) {
      }
      assert TicketStates() == old(TicketStates());
    }

    ghost method AddRequest(r: Request)
      requires Valid() && r.WellFormed() && r.id !in requests && 0 <= r.id < MAX_TICKET_ID
      modifies `requests
      ensures Valid() && Mine(r) && r.id !in arrived
      ensures State() == old(State()).(tickets := old(State()).tickets[r.id := StateOf(r.id)])
    {
      hide TableFor;
      requests := requests[r.id := r];
      forall i | 0 <= i < |workers| ensures workers[i].Valid() && Serves(workers[i].waiting) {
        assert old(workers[i].Valid() && Serves(workers[i].waiting));
      }
      assert Waiters() == old(Waiters());
      forall id | id in requests && id != r.id ensures StateOf(id) == old(StateOf(id)) {
      }
      assert TicketStates() == old(TicketStates())[r.id := StateOf(r.id)];
    }

    method EraseAt(i: int, r: Request)
      requires Valid() && Mine(r) && 0 <= i < |workers|
      modifies workers[i]
      ensures Valid()
      ensures Waiters() == old(Waiters())[i := old(Waiters())[i] - {r.id}]
    {
      hide TableFor, Known, Serves;
      MineFacts(r);
      ServesFacts(workers[i].waiting, r);
      var _ := workers[i].Erase(r.ticket);
      forall j | 0 <= j < |workers|
        ensures workers[j].Valid() && Serves(workers[j].waiting)
        ensures j != i ==> workers[j].waiting == old(workers[j].waiting)
      {
        assert j != i ==> workers[j] != workers[i];
      }
    }

    /** Erases a request from every worker of its window. */
    method EraseWindow(r: Request)
      requires Valid() && Mine(r)
      modifies set w | w in workers
      ensures Valid()
      ensures var t := StateOf(r.id);
              Waiters() == Swept(old(Waiters()), MinWorker(t, |workers| - 1), MaxWorker(t, |workers| - 1), r.id)
    {
      hide TableFor, Known, Serves, Swept;
      var top := |workers| - 1;
      var t := TicketState(r.playerCount, r.ticket.status, r.baseWorker, r.expansionLevel, true);
      ghost var ws := Waiters();
      var slot, last := MinWorker(t, top), MaxWorker(t, top);
      SweptEmpty(ws, slot, r.id);
      while slot <= last
        invariant 0 <= MinWorker(t, top) <= slot <= last + 1 <= |workers|
        invariant Valid()
        invariant Waiters() == Swept(ws, MinWorker(t, top), slot - 1, r.id)
      {
        SweptNext(ws, MinWorker(t, top), slot, r.id);
        EraseAt(slot, r);
        slot := slot + 1;
      }
    }

    /** Whether every listed ticket is still QUEUED. */
    method AllStillQueued(list: seq<Request>) returns (ok: bool)
      requires Valid() && AllMine(list)
      ensures ok <==> Fresh(State(), Ids(list))
    {
      for i := 0 to |list|
        invariant forall j :: 0 <= j < i ==> list[j].ticket.status.Queued?
      {
        if !list[i].ticket.status.Queued? {
          assert Ids(list)[i] == list[i].id && StateOf(list[i].id).status == list[i].ticket.status;
          return false;
        }
      }
      forall i | 0 <= i < |list|
        ensures Ids(list)[i] in State().tickets && State().tickets[Ids(list)[i]].status.Queued?
      {
        assert Mine(list[i]) && StateOf(list[i].id).status == list[i].ticket.status;
      }
      return true;
    }

    ghost function TicketsOf(list: seq<Request>): set<Ticket> {
      set i | 0 <= i < |list| :: list[i].ticket
    }

    /** Moves every listed ticket from QUEUED to SEARCHING. Under the group's lock no status can have moved
        since the check, so no change is refused and there is nothing to roll back. */
    method ReserveAll(list: seq<Request>)
      requires Valid() && AllMine(list) && NoDuplicates(Ids(list))
      requires forall i :: 0 <= i < |list| ==> list[i].ticket.status.Queued?
      modifies TicketsOf(list)
      ensures TicketStates() == WithStatus(old(TicketStates()), ToSet(Ids(list)), Searching)
    {
      hide TableFor;
      for i := 0 to |list|
        invariant forall j :: 0 <= j < i ==> list[j].ticket.status.Searching?
        invariant forall j :: i <= j < |list| ==> list[j].ticket.status.Queued?
        invariant forall id :: id in requests && id !in Ids(list) ==>
          requests[id].ticket.status == old(requests[id].ticket.status)
      {
        OwnTickets(list, i);
        var changed := list[i].ticket.ChangeStatusIfCurrent(Queued, Searching);
        assert changed;
      }
      forall id | id in requests
        ensures StateOf(id) == WithStatus(old(TicketStates()), ToSet(Ids(list)), Searching)[id]
      {
        if id in Ids(list) {
          var i :| 0 <= i < |list| && Ids(list)[i] == id;
          assert Mine(list[i]);
        }
      }
    }

    /** Different requests belong to different tickets. */
    lemma OwnTickets(list: seq<Request>, i: nat)
      requires Shape() && AllMine(list) && NoDuplicates(Ids(list)) && i < |list|
      ensures list[i].ticket in TicketsOf(list)
      ensures forall j :: 0 <= j < |list| && j != i ==> list[j].ticket != list[i].ticket
      ensures forall id :: id in requests && id !in Ids(list) ==> requests[id].ticket != list[i].ticket
    {
      assert Mine(list[i]) && Ids(list)[i] == list[i].id;
      forall j | 0 <= j < |list| && j != i ensures list[j].ticket != list[i].ticket {
        assert Mine(list[j]) && Ids(list)[j] == list[j].id;
      }
    }

    method EraseWindows(list: seq<Request>)
      requires Valid() && AllMine(list)
      modifies set w | w in workers
      ensures Valid()
      ensures Waiters() == SweptAll(old(State()), Ids(list))
    {
      hide TableFor, Known, Serves, Shape, InWindow, InWindowOf, Swept, SweptAll;
      ghost var q := State();
      SweptNone(q);
      for n := 0 to |list|
        invariant Valid()
        invariant Waiters() == SweptAll(q, Ids(list[..n]))
        invariant TicketStates() == q.tickets
      {
        assert Mine(list[n]);
        assert StateOf(list[n].id) == q.tickets[list[n].id];
        EraseWindow(list[n]);
        assert list[..n + 1] == list[..n] + [list[n]];
        assert |workers| - 1 == Top(q);
        SweptOneMore(q, list[..n], list[n]);
      }
      assert list[..|list|] == list;
    }

    /** Commits a selection: the step AfterCommit of the protocol, all or nothing. */
    method TryCommit(list: seq<Request>) returns (ok: bool)
      requires Valid() && AllMine(list) && NoDuplicates(Ids(list))
      modifies set w | w in workers
      modifies TicketsOf(list)
      ensures Valid()
      ensures ok <==> list != [] && Fresh(old(State()), Ids(list))
      ensures State() == AfterCommit(old(State()), Ids(list))
    {
      hide TableFor, Known, Serves, Shape, InWindow, InWindowOf, Fresh, WithStatus, SweptAll;
      ghost var q := State();
      if list == [] {
        CommitNothing(q);
        return false;
      }
      ok := AllStillQueued(list);
      if !ok {
        return;
      }
      FreshIsQueued(list);
      ReserveAll(list);
      ghost var q1 := State();
      assert q1 == q.(tickets := WithStatus(q.tickets, ToSet(Ids(list)), Searching));
      SweptIsCommitted(q, q1.tickets, Ids(list));
      EraseWindows(list);
    }

    lemma FreshIsQueued(list: seq<Request>)
      requires Valid() && AllMine(list) && Fresh(State(), Ids(list))
      ensures forall i :: 0 <= i < |list| ==> list[i].ticket.status.Queued?
    {
      forall i | 0 <= i < |list| ensures list[i].ticket.status.Queued? {
        assert Mine(list[i]) && Ids(list)[i] == list[i].id;
        assert StateOf(list[i].id).status == list[i].ticket.status;
      }
    }

    method EraseEverywhere(r: Request)
      requires Valid() && Mine(r)
      modifies set w | w in workers
      ensures Valid()
      ensures Waiters() == Swept(old(Waiters()), 0, |workers| - 1, r.id)
    {
      hide TableFor, Known, Serves, Swept;
      ghost var ws := Waiters();
      SweptEmpty(ws, 0, r.id);
      for i := 0 to |workers|
        invariant Valid()
        invariant Waiters() == Swept(ws, 0, i - 1, r.id)
      {
        SweptNext(ws, 0, i, r.id);
        EraseAt(i, r);
      }
    }

    /** Cancels a ticket that the status table still lets go, and erases it everywhere. */
    method CancelMatchTicket(r: Request) returns (ok: bool)
      requires Valid() && Mine(r)
      modifies set w | w in workers
      modifies r.ticket
      ensures Valid()
      ensures ok <==> CanChangeStatus(old(r.ticket.status), Cancelled)
      ensures State() == AfterCancel(old(State()), r.id)
    {
      hide TableFor, Known, Serves, Swept, WithStatus;
      ghost var q := State();
      assert q.tickets[r.id] == StateOf(r.id);
      ok := ChangeOne(r, Cancelled);
      if !ok {
        return;
      }
      EraseEverywhere(r);
      SweptIsCancelled(q, r.id);
    }

    /** One ticket's status change, as the group sees it. */
    method ChangeOne(r: Request, next: Status) returns (ok: bool)
      requires Shape() && Mine(r)
      modifies r.ticket
      ensures ok <==> CanChangeStatus(old(r.ticket.status), next)
      ensures TicketStates() == if ok then WithStatus(old(TicketStates()), {r.id}, next) else old(TicketStates())
    {
      hide TableFor;
      ok := r.ticket.ChangeStatus(next);
      forall id | id in requests
        ensures id != r.id ==> StateOf(id) == old(StateOf(id))
        ensures !ok ==> StateOf(id) == old(StateOf(id))
      {
        assert id != r.id ==> requests[id].ticket != r.ticket;
      }
    }

    /** Queues a request at the worker its id hashes to. Only sizes up to the match size and the party limit are
        let in; and a request that waits there already is turned away and erased. The change to QUEUED may be refused, when the
        ticket was cancelled meanwhile; the request waits anyway. */
    method EnqueueJobRequest(r: Request, now: int) returns (ok: bool)
      requires Valid() && Mine(r)
      modifies this`bookings, this`arrived, r`baseWorker, r.ticket
      modifies set w | w in workers
      ensures Valid()
      ensures 0 <= r.id % |workers| < |workers|
      ensures ok <==> 1 <= r.playerCount <= Min(rule.matchPlayerCount, limit)
                      && r.id !in old(Waiters())[r.id % |workers|]
      ensures State() == if 1 <= r.playerCount <= Min(rule.matchPlayerCount, limit)
                         then AfterEnqueue(old(State()), r.id, now) else old(State())
    {
      hide TableFor, Known, Serves, Insert, WithStatus, RequestIds, AfterEnqueue, Based, Joined, TicketStates, Waiters;
      ghost var q := State();
      StateMeans(r);
      MineFacts(r);
      SizesLetIn(r.playerCount);
      if r.playerCount !in rule.combinations {
        return false;
      }
      Arrive(r, now);
      ghost var q1 := State();
      assert q1.tickets[r.id].status == q.tickets[r.id].status by { StateMeans(r); }
      ok := Admit(r.baseWorker, r);
      ArrivalCompletes(q, q1, State(), r.id, now);
    }

    lemma WaitersMean()
      ensures |Waiters()| == |workers|
      ensures Valid() ==> Shape()
    {
    }

    /** The request enters the worker, or is erased there if it waits already. */
    method Admit(b: int, r: Request) returns (ok: bool)
      requires Valid() && Mine(r) && 0 <= b < |workers|
      requires r.id in arrived && r.playerCount in rule.combinations
      modifies workers[b], r.ticket
      ensures Valid()
      ensures ok <==> r.id !in old(Waiters())[b]
      ensures Waiters() == if ok then Joined(old(Waiters()), b, r.id)
                           else old(Waiters())[b := old(Waiters())[b] - {r.id}]
      ensures TicketStates() == if ok && CanChangeStatus(old(r.ticket.status), Queued)
                                then WithStatus(old(TicketStates()), {r.id}, Queued) else old(TicketStates())
    {
      hide Valid, Shape, WithStatus, TicketStates, Waiters, Joined;
      WaitersMean();
      ghost var ws := Waiters();
      ok := QueueAt(b, r);
      if ok {
        var _ := ChangeOne(r, Queued);
      } else {
        JoinedAlready(ws, b, r.id);
        EraseAt(b, r);
      }
    }

    lemma StateMeans(r: Request)
      requires Mine(r)
      ensures r.id in State().tickets && State().tickets[r.id] == StateOf(r.id) && |State().workers| == |workers|
      ensures State().tickets[r.id].status == r.ticket.status
    {
    }

    /** Fixes the base worker and, with several workers, books the expansion. */
    method Arrive(r: Request, now: int)
      requires Valid() && Mine(r) && r.playerCount in rule.combinations
      modifies this`bookings, this`arrived, r`baseWorker
      ensures Valid() && arrived == old(arrived) + {r.id}
      ensures r.baseWorker == r.id % |workers| && 0 <= r.baseWorker < |workers|
      ensures Waiters() == old(Waiters())
      ensures RequestIds(bookings)
           == if |workers| > 1 then Insert(old(RequestIds(bookings)), now, r.id) else old(RequestIds(bookings))
      ensures TicketStates() == Based(old(TicketStates()), r.id, |workers|)
    {
      hide TableFor, Known;
      MineFacts(r);
      SetBase(r, r.id % |workers|);
      BookFirst(r, now);
      forall id | id in requests
        ensures StateOf(id) == if id == r.id then old(StateOf(id)).(baseWorker := r.baseWorker, enqueued := true)
                               else old(StateOf(id))
      {
        KeyIsId(id);
      }
    }

    lemma KeyIsId(id: TicketId)
      requires Shape() && id in requests
      ensures requests[id].id == id
    {
    }

    method SetBase(r: Request, base: int)
      requires Valid() && Mine(r)
      modifies this`arrived, r`baseWorker
      ensures Valid() && arrived == old(arrived) + {r.id} && r.baseWorker == base
      ensures Waiters() == old(Waiters())
    {
      hide TableFor, Known;
      r.baseWorker := base;
      arrived := arrived + {r.id};
      forall i | 0 <= i < |workers| ensures workers[i].Valid() && Serves(workers[i].waiting) {
        assert old(Serves(workers[i].waiting));
      }
    }

    method BookFirst(r: Request, now: int)
      requires Valid() && Bookable(r)
      modifies this`bookings
      ensures Valid()
      ensures RequestIds(bookings)
           == if |workers| > 1 then Insert(old(RequestIds(bookings)), now, r.id) else old(RequestIds(bookings))
    {
      hide TableFor, Known, RequestIds, Insert;
      if |workers| > 1 {
        IdsInsert(bookings, now, r);
        InsertMembers(bookings, now, r);
        bookings := Insert(bookings, now, r);
      }
      forall i | 0 <= i < |workers| ensures workers[i].Valid() && Serves(workers[i].waiting) {
        assert old(Serves(workers[i].waiting));
      }
    }

    method QueueAt(i: int, r: Request) returns (ok: bool)
      requires Valid() && Mine(r) && 0 <= i < |workers|
      requires r.id in arrived && r.playerCount in rule.combinations
      modifies workers[i]
      ensures Valid()
      ensures ok <==> r.id !in old(Waiters())[i]
      ensures Waiters() == Joined(old(Waiters()), i, r.id)
    {
      hide TableFor, Known, Serves;
      MineFacts(r);
      ServesOneMore(workers[i].waiting, r);
      ok := workers[i].EnqueueJobRequest(r);
      forall j | 0 <= j < |workers|
        ensures workers[j].Valid() && Serves(workers[j].waiting)
        ensures j != i ==> workers[j].waiting == old(workers[j].waiting)
      {
        assert j != i ==> workers[j] != workers[i];
      }
    }

    /** Queues a request at the worker at one end of its window, if that end moved. */
    method JoinIfMoved(moved: bool, i: int, r: Request)
      requires Valid() && Bookable(r) && 0 <= i < |workers|
      modifies set w | w in workers
      ensures Valid()
      ensures Waiters() == if moved then Joined(old(Waiters()), i, r.id) else old(Waiters())
    {
      hide TableFor, Known, Serves, Joined;
      if moved {
        var _ := QueueAt(i, r);
      }
    }

    /** Queues a request at the new ends its window gets with the next level. */
    method JoinEnds(r: Request, newMin: int, newMax: int)
      requires Valid() && Bookable(r) && 0 <= r.baseWorker < |workers|
      requires newMin == MinWorker(Widened(StateOf(r.id)), |workers| - 1)
      requires newMax == MaxWorker(Widened(StateOf(r.id)), |workers| - 1)
      modifies set w | w in workers
      ensures Valid()
      ensures Waiters() == Grown(old(Waiters()), StateOf(r.id), r.id)
    {
      hide TableFor, Known, Serves, Shape, Joined, Grown;
      ghost var t, ws := StateOf(r.id), Waiters();
      var top := |workers| - 1;
      JoinIfMoved(newMin != Clamp(r.baseWorker - r.expansionLevel, 0, top), newMin, r);
      ghost var ws1 := Waiters();
      JoinIfMoved(newMax != Clamp(r.baseWorker + r.expansionLevel, 0, top), newMax, r);
      GrownAtEnds(ws, ws1, Waiters(), t, r.id);
    }

    method RaiseLevel(r: Request)
      requires Valid() && Mine(r)
      modifies r`expansionLevel
      ensures Valid() && Waiters() == old(Waiters())
      ensures TicketStates() == old(TicketStates())[r.id := Widened(old(StateOf(r.id)))]
    {
      hide TableFor, Known, Serves;
      r.expansionLevel := r.expansionLevel + 1;
      forall id | id in requests ensures StateOf(id) == if id == r.id then Widened(old(StateOf(id))) else old(StateOf(id)) {
        KeyIsId(id);
      }
    }

    /** Works through one booking: a QUEUED request widens by a level and joins the workers at the new ends
        of its window; any other request is dropped. */
    method WidenOne(r: Request) returns (rebook: bool)
      requires Valid() && Bookable(r) && 0 <= r.baseWorker < |workers|
      modifies r`expansionLevel
      modifies set w | w in workers
      ensures Valid()
      ensures Widths() == GrewBy(old(Widths()), r.id)
      ensures rebook <==> old(StateOf(r.id)).status.Queued? && !Covers(Widened(old(StateOf(r.id))), |workers| - 1)
    {
      hide TableFor, Known, Serves, Grown;
      ghost var t := StateOf(r.id);
      if !r.ticket.status.Queued? {
        return false;
      }
      var top := |workers| - 1;
      var level := r.expansionLevel + 1;
      var newMin, newMax := Clamp(r.baseWorker - level, 0, top), Clamp(r.baseWorker + level, 0, top);
      JoinEnds(r, newMin, newMax);
      RaiseLevel(r);
      rebook := newMin > 0 || newMax < top;
    }

    /** The part of the state that working through bookings changes. */
    ghost function Widths(): Queues
      reads this, set w | w in workers
      reads set x | x in requests :: requests[x], set x | x in requests :: requests[x].ticket
    {
      Queues(Waiters(), TicketStates(), [])
    }

    /** One round of window expansion: the step AfterExpand of the protocol. */
    method ExpandWindows(now: int)
      requires Valid() && QueuesSane(State()) && BookingsSane(State())
      modifies this`bookings
      modifies set w | w in workers
      modifies set id | id in requests :: requests[id]
      ensures Valid()
      ensures State() == AfterExpand(old(State()), now)
    {
      hide TableFor, Known, Serves, AfterExpand, QueuesSane, BookingsSane, GrewBy, Progress, Due;
      ghost var q := State();
      ghost var n := 0;
      var rebook: seq<Request> := [];
      ProgressStarts(q, now);
      while bookings != [] && bookings[0].0 <= now - 1
        invariant n <= |q.expand| && bookings == old(bookings)[n..]
        invariant Valid() && AllBookable(rebook)
        invariant Progress(q, now, n, Widths(), Ids(rebook))
        decreases |bookings|
      {
        var r := bookings[0].1;
        assert q.expand[n] == (bookings[0].0, r.id);
        PopBooking();
        ProgressNext(q, now, n, Widths(), Ids(rebook));
        assert StateOf(r.id) == q.tickets[r.id];
        ghost var before, ids := Widths(), Ids(rebook);
        var again := WidenOne(r);
        ProgressStep(q, now, n, before, ids, again);
        if again {
          assert Ids(rebook + [r]) == Ids(rebook) + [r.id];
          rebook := rebook + [r];
        }
        n := n + 1;
      }
      ghost var w := Widths();
      assert RequestIds(bookings) == q.expand[n..];
      Rebook(rebook, now);
      ProgressEnds(q, now, n, w, Ids(rebook), State());
    }

    method PopBooking()
      requires Valid() && bookings != []
      modifies this`bookings
      ensures Valid() && bookings == old(bookings)[1..] && Widths() == old(Widths())
      ensures Bookable(old(bookings)[0].1)
    {
      hide TableFor, Known;
      bookings := bookings[1..];
      forall i | 0 <= i < |workers| ensures workers[i].Valid() && Serves(workers[i].waiting) {
        assert old(Serves(workers[i].waiting));
      }
    }

    ghost predicate AllBookable(list: seq<Request>)
      reads this
    {
      forall i :: 0 <= i < |list| ==> Bookable(list[i])
    }

    method Rebook(list: seq<Request>, now: int)
      requires Valid() && AllBookable(list)
      modifies this`bookings
      ensures Valid()
      ensures RequestIds(bookings) == Book(old(RequestIds(bookings)), now, Ids(list))
      ensures Widths() == old(Widths())
    {
      for i := 0 to |list|
        invariant Valid()
        invariant RequestIds(bookings) == Book(old(RequestIds(bookings)), now, Ids(list[..i]))
      {
        BookOne(list[i], now);
        assert list[..i + 1] == list[..i] + [list[i]];
        assert Ids(list[..i + 1])[..i] == Ids(list[..i]);
      }
      assert list[..|list|] == list;
    }

    method BookOne(r: Request, now: int)
      requires Valid() && Bookable(r)
      modifies this`bookings
      ensures Valid()
      ensures RequestIds(bookings) == Insert(old(RequestIds(bookings)), now, r.id)
    {
      hide TableFor, Known, RequestIds, Insert;
      IdsInsert(bookings, now, r);
      InsertMembers(bookings, now, r);
      bookings := Insert(bookings, now, r);
      forall i | 0 <= i < |workers| ensures workers[i].Valid() && Serves(workers[i].waiting) {
        assert old(Serves(workers[i].waiting));
      }
    }

    /** Everything waiting at a worker has a size the rule knows and an id below the maximum. */
    lemma WorkerFacts(i: int)
      requires Valid() && 0 <= i < |workers|
      ensures workers[i].waiting != map[] ==> workers[i].ServedBy(rule, limit)
      ensures forall id :: id in workers[i].waiting ==> id < MAX_TICKET_ID
    {
      var waiting := workers[i].waiting;
      assert Serves(waiting);
      if waiting != map[] {
        var id := Pick(waiting.Keys);
        assert waiting[id].playerCount in rule.combinations;
      }
    }

    /** What a worker selects are this group's own requests, all still QUEUED, and its slots agree with the
        group's view of the tickets. */
    lemma SelectedFacts(i: int, n: int, list: seq<Request>)
      requires Valid() && 0 <= i < |workers|
      requires workers[i].Holds(list) && Fills(workers[i].Slots(), n, Ids(list))
      ensures AllMine(list) && NoDuplicates(Ids(list)) && list != []
      ensures Fresh(State(), Ids(list))
      ensures ToSet(Ids(list)) <= Waiters()[i]
    {
      assert Serves(workers[i].waiting);
      var v := workers[i].Slots();
      forall j | 0 <= j < |list|
        ensures Mine(list[j]) && list[j].ticket.status.Queued? && Ids(list)[j] in State().tickets
      {
        var id := Ids(list)[j];
        assert id in v && v[id].queued;
        assert StateOf(id).status == list[j].ticket.status;
      }
    }

    lemma SelectedPlayers(i: int, n: int, list: seq<Request>)
      requires Valid() && 0 <= i < |workers|
      requires workers[i].Holds(list) && Selection.Known(workers[i].Slots(), Ids(list))
      requires Sum(Sizes(workers[i].Slots(), Ids(list))) == n
      ensures Players(State(), Ids(list)) == n
    {
      assert Serves(workers[i].waiting);
      PlayersAreSizes(workers[i].Slots(), State(), Ids(list));
    }

    /** A worker thread looks for a match: the step Select of the protocol. It finds one exactly when some set of
        QUEUED tickets waiting there fills one, and then a best one. */
    method Select(i: int) returns (list: seq<Request>)
      requires Valid() && 0 <= i < |workers|
      ensures list == [] <==> NoneFills(workers[i].Slots(), rule.matchPlayerCount)
      ensures AllMine(list) && NoDuplicates(Ids(list))
      ensures list != [] ==>
        && FillsBest(workers[i].Slots(), rule.matchPlayerCount, Ids(list))
        && Selectable(State(), rule.matchPlayerCount, i, Ids(list)) && Fresh(State(), Ids(list))
    {
      hide TableFor, Serves, Fills, FillsBest, NoneFills, SizesKnown, Fresh, Players;
      WorkerFacts(i);
      list := workers[i].MakeMatchmaking(rule, limit);
      if list != [] {
        BestIsFilling(workers[i].Slots(), rule.matchPlayerCount, Ids(list));
        SelectedFacts(i, rule.matchPlayerCount, list);
        SelectedPlayers(i, rule.matchPlayerCount, list);
        SelectableIds(State(), rule.matchPlayerCount, i, Ids(list));
      }
    }

    /** One turn of a worker thread with nobody interfering: select, then commit. It commits what it found. */
    method DoWorkerAsyncJob(i: int) returns (list: seq<Request>)
      requires Valid() && 0 <= i < |workers|
      modifies set w | w in workers
      modifies set id | id in requests :: requests[id].ticket
      ensures Valid()
      ensures State() == AfterCommit(old(State()), Ids(list))
      ensures list == [] <==> NoneFills(old(workers[i].Slots()), rule.matchPlayerCount)
      ensures list == [] ==> workers[i].Slots() == old(workers[i].Slots())
      ensures list != [] ==>
        && FillsBest(old(workers[i].Slots()), rule.matchPlayerCount, Ids(list))
        && Selectable(old(State()), rule.matchPlayerCount, i, Ids(list)) && Fresh(old(State()), Ids(list))
    {
      hide TableFor, Serves, Fills, FillsBest, NoneFills, SizesKnown, AfterCommit, Fresh, Players, Selectable;
      list := Select(i);
      if list == [] {
        CommitNothing(State());
        return;
      }
      var ok := TryCommit(list);
      assert ok;
    }

    /** One turn of a run that started in state q and has made the given matches since. */
    method TakeTurn(i: int, ghost q: Queues, ghost matches: seq<seq<TicketId>>) returns (list: seq<Request>)
      requires Valid() && QueuesSane(State()) && 0 <= i < |workers|
      requires Conserved(q, State(), i, rule.matchPlayerCount, matches)
      modifies set w | w in workers
      modifies set id | id in requests :: requests[id].ticket
      ensures Valid() && QueuesSane(State())
      ensures Conserved(q, State(), i, rule.matchPlayerCount, if list == [] then matches else matches + [Ids(list)])
      ensures list == [] ==> NoneFills(workers[i].Slots(), rule.matchPlayerCount)
      ensures list != [] ==> Waiters()[i] < old(Waiters()[i])
    {
      hide TableFor, Serves, Fills, FillsBest, NoneFills, AfterCommit, Fresh, Players, QueuesSane, Shape, Conserved;
      ghost var q1 := State();
      list := DoWorkerAsyncJob(i);
      CommittedSane(q1, Ids(list));
      if list == [] {
        CommitNothing(q1);
      } else {
        SelectableMeans(q1, rule.matchPlayerCount, i, Ids(list));
        CommitConserves(q, q1, i, rule.matchPlayerCount, matches, Ids(list));
      }
    }

    /** A worker thread left alone: it matches until nothing more fits. It loses no ticket: what waited
        there before either still waits or is in exactly one match, every match has exactly the players of
        one, and when it stops no set of the remaining QUEUED tickets makes another. */
    method RunUntilIdle(i: int) returns (matches: seq<seq<Request>>)
      requires Valid() && QueuesSane(State()) && 0 <= i < |workers|
      modifies set w | w in workers
      modifies set id | id in requests :: requests[id].ticket
      ensures Valid() && QueuesSane(State())
      ensures NoneFills(workers[i].Slots(), rule.matchPlayerCount)
      ensures Conserved(old(State()), State(), i, rule.matchPlayerCount, MatchIds(matches))
    {
      hide TableFor, Serves, NoneFills, QueuesSane, Shape, Conserved, MatchIds;
      ghost var q := State();
      matches := [];
      ConservedStarts(q, i, rule.matchPlayerCount);
      NoMatchIds();
      while true
        invariant Valid() && QueuesSane(State())
        invariant Conserved(q, State(), i, rule.matchPlayerCount, MatchIds(matches))
        decreases Waiters()[i]
      {
        var list := TakeTurn(i, q, MatchIds(matches));
        if list == [] {
          break;
        }
        OneMoreMatchIds(matches, list);
        matches := matches + [list];
      }
    }
  }

  ghost function MatchIds(matches: seq<seq<Request>>): seq<seq<TicketId>> {
    seq(|matches|, i requires 0 <= i < |matches| => Ids(matches[i]))
  }

  lemma NoMatchIds()
    ensures MatchIds([]) == []
  {
  }

  lemma OneMoreMatchIds(matches: seq<seq<Request>>, list: seq<Request>)
    ensures MatchIds(matches + [list]) == MatchIds(matches) + [Ids(list)]
  {
  }

  /** All tickets of a list of matches. */
  ghost function Matched(matches: seq<seq<TicketId>>): set<TicketId> {
    set i, id | 0 <= i < |matches| && id in matches[i] :: id
  }

  /** What a run of worker i keeps: the tickets that waited there are exactly those still waiting and
      those matched, no ticket is counted twice, and every match has exactly n players. */
  ghost predicate Conserved(q: Queues, q': Queues, i: int, n: int, matches: seq<seq<TicketId>>) {
    && 0 <= i < |q.workers| == |q'.workers| && SameSizes(q, q')
    && q.workers[i] == q'.workers[i] + Matched(matches)
    && q'.workers[i] !! Matched(matches)
    && (forall a, b, id :: 0 <= a < b < |matches| && id in matches[a] ==> id !in matches[b])
    && (forall a :: 0 <= a < |matches| ==> NoDuplicates(matches[a]) && Players(q, matches[a]) == n)
  }

  ghost predicate SameSizes(q: Queues, q': Queues) {
    && q'.tickets.Keys == q.tickets.Keys
    && forall id :: id in q.tickets ==> q'.tickets[id].size == q.tickets[id].size
  }

  lemma ConservedStarts(q: Queues, i: int, n: int)
    requires 0 <= i < |q.workers|
    ensures Conserved(q, q, i, n, [])
  {
    assert Matched([]) == {};
  }

  /** A commit takes exactly its tickets out of the worker they were selected at. */
  lemma CommitConserves(q: Queues, q1: Queues, i: int, n: int, matches: seq<seq<TicketId>>, ids: seq<TicketId>)
    requires QueuesSane(q1) && Conserved(q, q1, i, n, matches)
    requires Fresh(q1, ids) && ids != [] && NoDuplicates(ids) && ToSet(ids) <= q1.workers[i] && Players(q1, ids) == n
    ensures Conserved(q, AfterCommit(q1, ids), i, n, matches + [ids])
    ensures AfterCommit(q1, ids).workers[i] < q1.workers[i]
  {
    hide Players;
    var q2 := AfterCommit(q1, ids);
    CommittedSane(q1, ids);
    assert q2.workers[i] == q1.workers[i] - ToSet(ids);
    assert ids[0] in ToSet(ids);
    MatchedOneMore(matches, ids);
    SameSizesSamePlayers(q, q1, ids);
    var all := matches + [ids];
    forall a, b, id | 0 <= a < b < |all| && id in all[a] ensures id !in all[b] {
      assert id in Matched(matches);
    }
  }

  lemma MatchedOneMore(matches: seq<seq<TicketId>>, ids: seq<TicketId>)
    ensures Matched(matches + [ids]) == Matched(matches) + ToSet(ids)
  {
    var all := matches + [ids];
    forall id ensures id in Matched(all) <==> id in Matched(matches) || id in ids {
      if id in ids {
        assert id in all[|matches|];
      }
      if id in Matched(matches) {
        var i :| 0 <= i < |matches| && id in matches[i];
        assert id in all[i];
      }
    }
  }

  lemma {:induction false} SameSizesSamePlayers(q: Queues, q1: Queues, ids: seq<TicketId>)
    requires SameSizes(q, q1)
    ensures Players(q, ids) == Players(q1, ids)
  {
    if ids != [] {
      SameSizesSamePlayers(q, q1, ids[..|ids| - 1]);
      var last := ids[|ids| - 1];
      assert last in q.tickets.Keys <==> last in q1.tickets.Keys;
    }
  }

  lemma SelectableIds(q: Queues, n: int, i: int, ids: seq<TicketId>)
    requires 0 <= i < |q.workers| && ids != [] && NoDuplicates(ids) && ToSet(ids) <= q.workers[i]
    requires Players(q, ids) == n
    ensures Selectable(q, n, i, ids)
  {
    forall k | 0 <= k < |ids| ensures ids[k] in q.workers[i] {
      assert ids[k] in ToSet(ids);
    }
  }

  lemma SelectableMeans(q: Queues, n: int, i: int, ids: seq<TicketId>)
    requires Selectable(q, n, i, ids)
    ensures ids != [] && NoDuplicates(ids) && ToSet(ids) <= q.workers[i] && Players(q, ids) == n
  {
  }

  lemma BestIsFilling(v: View, n: int, ids: seq<TicketId>)
    requires FillsBest(v, n, ids)
    ensures Fills(v, n, ids) && Selection.Known(v, ids) && Sum(Sizes(v, ids)) == n
    ensures ids != [] && NoDuplicates(ids)
  {
  }

  lemma {:induction false} PlayersAreSizes(v: View, q: Queues, ids: seq<TicketId>)
    requires Selection.Known(v, ids)
    requires forall id :: id in v ==> id in q.tickets && q.tickets[id].size == v[id].size
    ensures Players(q, ids) == Sum(Sizes(v, ids))
  {
    if ids != [] {
      var front := ids[..|ids| - 1];
      PlayersAreSizes(v, q, front);
      assert Sizes(v, ids)[..|ids| - 1] == Sizes(v, front);
      var last := ids[|ids| - 1];
      assert last in v;
    }
  }

  ghost function Grown(ws: seq<set<TicketId>>, t: TicketState, id: TicketId): seq<set<TicketId>> {
    seq(|ws|, w requires 0 <= w < |ws| => if NewEnd(t, w, |ws| - 1) then ws[w] + {id} else ws[w])
  }

  lemma GrownAtEnds(ws: seq<set<TicketId>>, ws1: seq<set<TicketId>>, ws2: seq<set<TicketId>>, t: TicketState, id: TicketId)
    requires ws != [] && 0 <= t.baseWorker < |ws|
    requires var top := |ws| - 1;
             var newMin, newMax := MinWorker(Widened(t), top), MaxWorker(Widened(t), top);
             && ws1 == (if newMin != MinWorker(t, top) then Joined(ws, newMin, id) else ws)
             && ws2 == if newMax != MaxWorker(t, top) then Joined(ws1, newMax, id) else ws1
    ensures ws2 == Grown(ws, t, id)
  {
  }

  /** The queues and tickets after the listed bookings have been worked through. */
  ghost function Grew(q: Queues, ids: seq<TicketId>): Queues {
    var grow := Growing(q, ToSet(ids));
    Queues(seq(|q.workers|, w requires 0 <= w < |q.workers| => q.workers[w] + NewAt(q, grow, w)),
           map id | id in q.tickets :: if id in grow then Widened(q.tickets[id]) else q.tickets[id],
           [])
  }

  /** The queues and tickets after one more booking. */
  ghost function GrewBy(q: Queues, id: TicketId): Queues {
    if id in q.tickets && q.tickets[id].status.Queued?
    then Queues(Grown(q.workers, q.tickets[id], id), q.tickets[id := Widened(q.tickets[id])], q.expand)
    else q
  }

  /** The round so far: the first n bookings worked through, and those of them that need another. */
  ghost predicate Progress(q: Queues, now: int, n: nat, widths: Queues, rebooked: seq<TicketId>) {
    && n <= |Due(q, now)|
    && widths == Grew(q, Due(q, now)[..n]) && rebooked == Rebooked(q, Due(q, now)[..n])
  }

  lemma ProgressStarts(q: Queues, now: int)
    ensures Progress(q, now, 0, q.(expand := []), Ids([]))
  {
    assert Due(q, now)[..0] == [];
    assert Growing(q, ToSet([])) == {};
    forall w | 0 <= w < |q.workers| ensures Grew(q, []).workers[w] == q.workers[w] {
      assert NewAt(q, {}, w) == {};
    }
  }

  /** The next due booking's ticket has not been touched yet. */
  lemma ProgressNext(q: Queues, now: int, n: nat, widths: Queues, rebooked: seq<TicketId>)
    requires QueuesSane(q) && BookingsSane(q) && Progress(q, now, n, widths, rebooked)
    requires n < |q.expand| && q.expand[n].0 <= now - 1
    ensures n < |Due(q, now)| && Due(q, now)[n] == q.expand[n].1
    ensures var id := q.expand[n].1;
            && id in q.tickets && id !in Due(q, now)[..n]
            && widths.tickets.Keys == q.tickets.Keys && widths.tickets[id] == q.tickets[id]
            && 0 <= q.tickets[id].baseWorker < |q.workers| == |widths.workers|
  {
    GrewKeeps(q, now, n);
  }

  lemma ProgressStep(q: Queues, now: int, n: nat, widths: Queues, rebooked: seq<TicketId>, again: bool)
    requires QueuesSane(q) && BookingsSane(q) && Progress(q, now, n, widths, rebooked)
    requires n < |q.expand| && q.expand[n].0 <= now - 1
    requires var id := q.expand[n].1;
             id in q.tickets && (again <==> q.tickets[id].status.Queued? && !Covers(Widened(q.tickets[id]), Top(q)))
    ensures Progress(q, now, n + 1, GrewBy(widths, q.expand[n].1),
                     if again then rebooked + [q.expand[n].1] else rebooked)
  {
    hide Grew, GrewBy, Rebooked;
    var due := Due(q, now);
    ProgressNext(q, now, n, widths, rebooked);
    GrewOneMore(q, due[..n], due[n]);
    assert due[..n + 1] == due[..n] + [due[n]];
  }

  lemma ProgressEnds(q: Queues, now: int, n: nat, widths: Queues, rebooked: seq<TicketId>, q': Queues)
    requires Progress(q, now, n, widths, rebooked) && n <= |q.expand|
    requires n < |q.expand| ==> q.expand[n].0 > now - 1
    requires q'.workers == widths.workers && q'.tickets == widths.tickets
    requires q'.expand == Book(q.expand[n..], now, rebooked)
    ensures q' == AfterExpand(q, now)
  {
    DueEnds(q, now, n);
    assert Due(q, now)[..n] == Due(q, now);
    GrewIsExpanded(q, now);
  }

  lemma GrewOneMore(q: Queues, ids: seq<TicketId>, id: TicketId)
    requires id in q.tickets && id !in ids && 0 < |q.workers|
    ensures Grew(q, ids + [id]) == GrewBy(Grew(q, ids), id)
    ensures Rebooked(q, ids + [id])
         == if q.tickets[id].status.Queued? && !Covers(Widened(q.tickets[id]), Top(q)) then Rebooked(q, ids) + [id]
            else Rebooked(q, ids)
  {
    assert (ids + [id])[..|ids|] == ids;
    assert ToSet(ids + [id]) == ToSet(ids) + {id};
    if q.tickets[id].status.Queued? {
      assert Growing(q, ToSet(ids + [id])) == Growing(q, ToSet(ids)) + {id};
      forall w | 0 <= w < |q.workers|
        ensures Grew(q, ids + [id]).workers[w] == Grown(Grew(q, ids).workers, q.tickets[id], id)[w]
      {
        assert NewAt(q, Growing(q, ToSet(ids + [id])), w)
            == NewAt(q, Growing(q, ToSet(ids)), w) + (if NewEnd(q.tickets[id], w, Top(q)) then {id} else {});
      }
    } else {
      assert Growing(q, ToSet(ids + [id])) == Growing(q, ToSet(ids));
    }
  }

  /** The next booking's ticket has not been touched yet. */
  lemma GrewKeeps(q: Queues, now: int, n: nat)
    requires QueuesSane(q) && BookingsSane(q) && n < |Due(q, now)|
    ensures var due := Due(q, now);
            && due[n] !in due[..n] && due[n] in q.tickets
            && Grew(q, due[..n]).tickets.Keys == q.tickets.Keys
            && Grew(q, due[..n]).tickets[due[n]] == q.tickets[due[n]]
            && 0 <= q.tickets[due[n]].baseWorker < |q.workers|
  {
    var due := Due(q, now);
    DueSplits(q, now, due[n]);
    assert q.expand[n].1 == due[n];
    assert BooksId(q.expand, due[n]);
  }

  lemma DueEnds(q: Queues, now: int, n: nat)
    requires n <= |Due(q, now)| && (n < |q.expand| ==> q.expand[n].0 > now - 1)
    ensures n == |Due(q, now)|
  {
  }

  lemma GrewIsExpanded(q: Queues, now: int)
    ensures var due := Due(q, now);
            AfterExpand(q, now) == Grew(q, due).(expand := Book(q.expand[|due|..], now, Rebooked(q, due)))
  {
  }

  /** Worker queues after one id is erased from the workers first..last. */
  ghost function Swept(ws: seq<set<TicketId>>, first: int, last: int, id: TicketId): seq<set<TicketId>> {
    seq(|ws|, i requires 0 <= i < |ws| => if first <= i <= last then ws[i] - {id} else ws[i])
  }

  lemma SweptEmpty(ws: seq<set<TicketId>>, first: int, id: TicketId)
    ensures Swept(ws, first, first - 1, id) == ws
  {
  }

  lemma SweptNext(ws: seq<set<TicketId>>, first: int, i: int, id: TicketId)
    requires first <= i < |ws| && 0 <= i
    ensures |Swept(ws, first, i - 1, id)| == |ws|
    ensures Swept(ws, first, i, id) == Swept(ws, first, i - 1, id)[i := Swept(ws, first, i - 1, id)[i] - {id}]
  {
  }

  lemma SweptIsCancelled(q: Queues, id: TicketId)
    requires id in q.tickets && CanChangeStatus(q.tickets[id].status, Cancelled)
    ensures Swept(q.workers, 0, |q.workers| - 1, id) == AfterCancel(q, id).workers
  {
  }

  ghost function Based(tickets: map<TicketId, TicketState>, id: TicketId, n: nat): map<TicketId, TicketState>
    requires id in tickets && n > 0
  {
    tickets[id := tickets[id].(baseWorker := id % n, enqueued := true)]
  }

  ghost function Joined(ws: seq<set<TicketId>>, i: int, id: TicketId): seq<set<TicketId>>
    requires 0 <= i < |ws|
  {
    ws[i := ws[i] + {id}]
  }

  lemma JoinedAlready(ws: seq<set<TicketId>>, i: int, id: TicketId)
    requires 0 <= i < |ws| && id in ws[i]
    ensures Joined(ws, i, id) == ws
  {
    assert ws[i] + {id} == ws[i];
  }

  lemma ArrivalCompletes(q: Queues, q1: Queues, q': Queues, id: TicketId, now: int)
    requires q.workers != [] && id in q.tickets && 0 <= id % |q.workers| < |q.workers|
    requires q1.tickets == Based(q.tickets, id, |q.workers|)
    requires var b := id % |q.workers|;
             var enters := id !in q.workers[b];
             && q'.workers == (if enters then Joined(q.workers, b, id) else q.workers[b := q.workers[b] - {id}])
             && q'.tickets == if enters && CanChangeStatus(q.tickets[id].status, Queued)
                              then WithStatus(q1.tickets, {id}, Queued) else q1.tickets
    requires q'.expand == if |q.workers| > 1 then Insert(q.expand, now, id) else q.expand
    ensures q' == AfterEnqueue(q, id, now)
  {
  }

  lemma {:induction false} IdsInsert(q: Queue<Request>, now: int, r: Request)
    ensures RequestIds(Insert(q, now, r)) == Insert(RequestIds(q), now, r.id)
  {
    if q == [] || q[|q| - 1].0 <= now {
    } else {
      var front := q[..|q| - 1];
      IdsInsert(front, now, r);
      assert RequestIds(q)[..|q| - 1] == RequestIds(front);
    }
  }

  lemma {:induction false} InsertMembers(q: Queue<Request>, now: int, r: Request)
    ensures forall i :: 0 <= i < |Insert(q, now, r)| ==>
      Insert(q, now, r)[i].1 == r || exists j :: 0 <= j < |q| && q[j] == Insert(q, now, r)[i]
  {
    if q == [] || q[|q| - 1].0 <= now {
    } else {
      InsertMembers(q[..|q| - 1], now, r);
    }
  }

  /** Worker queues after every listed id is erased from its window. */
  ghost function SweptAll(q: Queues, ids: seq<TicketId>): seq<set<TicketId>> {
    seq(|q.workers|, i requires 0 <= i < |q.workers| => q.workers[i] - InWindowOf(q, ToSet(ids), i))
  }

  lemma SweptNone(q: Queues)
    ensures SweptAll(q, Ids([])) == q.workers
  {
    forall i | 0 <= i < |q.workers| ensures SweptAll(q, Ids([]))[i] == q.workers[i] {
      assert InWindowOf(q, ToSet(Ids([])), i) == {};
    }
  }

  lemma SweptOneMore(q: Queues, list: seq<Request>, r: Request)
    requires r.id in q.tickets
    ensures var t := q.tickets[r.id];
            Swept(SweptAll(q, Ids(list)), MinWorker(t, Top(q)), MaxWorker(t, Top(q)), r.id)
            == SweptAll(q, Ids(list + [r]))
  {
    var t := q.tickets[r.id];
    assert Ids(list + [r]) == Ids(list) + [r.id];
    assert ToSet(Ids(list + [r])) == ToSet(Ids(list)) + {r.id};
    forall i | 0 <= i < |q.workers|
      ensures Swept(SweptAll(q, Ids(list)), MinWorker(t, Top(q)), MaxWorker(t, Top(q)), r.id)[i]
           == SweptAll(q, Ids(list + [r]))[i]
    {
      assert InWindowOf(q, ToSet(Ids(list + [r])), i)
          == InWindowOf(q, ToSet(Ids(list)), i) + (if InWindow(t, i, Top(q)) then {r.id} else {});
    }
  }

  /** Statuses play no part in where a window lies, so sweeping after the change to SEARCHING completes
      the commit. */
  lemma SweptIsCommitted(q: Queues, tickets: map<TicketId, TicketState>, ids: seq<TicketId>)
    requires tickets == WithStatus(q.tickets, ToSet(ids), Searching) && Fresh(q, ids)
    ensures Queues(SweptAll(q.(tickets := tickets), ids), tickets, q.expand) == AfterCommit(q, ids)
  {
    var q' := q.(tickets := tickets);
    forall w | 0 <= w < |q.workers| ensures InWindowOf(q', ToSet(ids), w) == InWindowOf(q, ToSet(ids), w) {
      forall id ensures id in InWindowOf(q', ToSet(ids), w) <==> id in InWindowOf(q, ToSet(ids), w) {
        if id in q.tickets {
          assert InWindow(tickets[id], w, Top(q)) == InWindow(q.tickets[id], w, Top(q));
        }
      }
    }
  }

  lemma CommitNothing(q: Queues)
    ensures AfterCommit(q, Ids([])) == q
  {
    SweptNone(q);
    assert WithStatus(q.tickets, ToSet(Ids([])), Searching) == q.tickets;
    assert AfterCommit(q, Ids([])).workers == SweptAll(q, Ids([]));
  }
}
