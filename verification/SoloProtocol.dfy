/** The solo worker group as a state machine over the worker's critical sections. A request's change to
    QUEUED happens before the worker's lock is taken, so a cancel can come in between. */
module SoloProtocol {
  import opened Tickets
  import opened Ordered
  import opened SoloLane

  /** The workers' lists, the ticket statuses, the requests already QUEUED that have not yet entered their
      worker, the matches made, the cancels that succeeded, and whether a match was ever found to hold a
      ticket that refused the change to SEARCHING. */
  datatype Solo = Solo(lanes: seq<Lane>, tickets: map<TicketId, Status>, arriving: set<TicketId>,
                       matches: seq<set<TicketId>>, cancelled: set<TicketId>, broken: bool)

  datatype Step =
    | Register(id: TicketId)
    | MarkQueued(id: TicketId)
    | Insert(id: TicketId)
    | Cancel(id: TicketId)
    | Job(worker: int)
    | Outside(id: TicketId, next: Status)

  function WorkerOf(count: nat, id: TicketId): (w: int)
    requires count > 0
    ensures 0 <= w < count
  {
    id % count
  }

  function LaneOf(s: Solo, id: TicketId): int
    requires s.lanes != []
  {
    WorkerOf(|s.lanes|, id)
  }

  function Without(lane: Lane, id: TicketId): Lane {
    Lane(lane.waiting - {id}, lane.progressing - {id})
  }

  /** A worker's lists after a request was let in, or turned away and erased. */
  function Entered(lane: Lane, id: TicketId, ok: bool): Lane {
    if ok then Lane(lane.waiting + {id}, lane.progressing) else Without(lane, id)
  }

  /** The change to SEARCHING of every ticket of a match, ticket by ticket. */
  function Searched(tickets: map<TicketId, Status>, ids: set<TicketId>): (r: map<TicketId, Status>)
    ensures r.Keys == tickets.Keys
  {
    map id | id in tickets ::
      if id in ids && CanChangeStatus(tickets[id], Searching) then Searching else tickets[id]
  }

  /** Exactly the QUEUED tickets of the match are SEARCHING now, and no other status has changed. */
  lemma SearchedMeans(tickets: map<TicketId, Status>, ids: set<TicketId>)
    ensures forall id :: id in tickets ==>
              Searched(tickets, ids)[id] == if id in ids && tickets[id].Queued? then Searching else tickets[id]
    ensures AllCanSearch(tickets, ids) <==> forall id :: id in ids ==> id in tickets && tickets[id].Queued?
  {
  }

  ghost predicate AllCanSearch(tickets: map<TicketId, Status>, ids: set<TicketId>) {
    forall id :: id in ids ==> id in tickets && CanChangeStatus(tickets[id], Searching)
  }

  lemma NothingSearched(tickets: map<TicketId, Status>)
    ensures Searched(tickets, {}) == tickets && AllCanSearch(tickets, {})
  {
  }

  function AfterMark(s: Solo, id: TicketId): Solo
    requires id in s.tickets
  {
    if CanChangeStatus(s.tickets[id], Queued)
    then s.(tickets := s.tickets[id := Queued], arriving := s.arriving + {id})
    else s
  }

  /** Entering the worker re-checks the status; a request that is turned away is erased from both lists. */
  function AfterInsert(s: Solo, id: TicketId): Solo
    requires s.lanes != [] && id in s.tickets
  {
    var w := LaneOf(s, id);
    var lane := s.lanes[w];
    s.(arriving := s.arriving - {id},
       lanes := s.lanes[w := Entered(lane, id, s.tickets[id].Queued? && id !in lane.waiting)])
  }

  function AfterCancel(s: Solo, id: TicketId): Solo
    requires s.lanes != [] && id in s.tickets
  {
    if !CanChangeStatus(s.tickets[id], Cancelled) then s
    else
      var w := LaneOf(s, id);
      s.(tickets := s.tickets[id := Cancelled], cancelled := s.cancelled + {id},
         lanes := s.lanes[w := Without(s.lanes[w], id)])
  }

  ghost function AfterSoloJob(s: Solo, n: nat, w: int): Solo
    requires 0 <= w < |s.lanes|
  {
    var lane := s.lanes[w];
    var m := JobMatch(lane, n);
    var s1 := s.(lanes := s.lanes[w := AfterJob(lane, n)]);
    if !Completes(lane, n) then s1
    else if AllCanSearch(s.tickets, m)
    then s1.(tickets := Searched(s.tickets, m), matches := s.matches + [m])
    else s1.(tickets := Searched(s.tickets, m), broken := true)
  }

  ghost predicate Enabled(s: Solo, step: Step) {
    s.lanes != [] &&
    match step
    case Register(id) => id >= 0 && id !in s.tickets
    case MarkQueued(id) => id in s.tickets
    case Insert(id) => id in s.arriving && id in s.tickets
    case Cancel(id) => id in s.tickets
    case Job(w) => 0 <= w < |s.lanes|
    case Outside(id, next) =>
      // What sessions and failed registrations do to a ticket that is not in the queue's hands.
      && id in s.tickets && CanChangeStatus(s.tickets[id], next)
      && (Stage(s.tickets[id]) >= 2 || (s.tickets[id].Unset? && next.Failed?))
  }

  ghost function Apply(s: Solo, n: nat, step: Step): Solo
    requires Enabled(s, step)
  {
    match step
    case Register(id) => s.(tickets := s.tickets[id := Unset])
    case MarkQueued(id) => AfterMark(s, id)
    case Insert(id) => AfterInsert(s, id)
    case Cancel(id) => AfterCancel(s, id)
    case Job(w) => AfterSoloJob(s, n, w)
    case Outside(id, next) => s.(tickets := s.tickets[id := next])
  }

  // ---------- The invariant ----------

  /** Whoever is in a worker's lists is QUEUED, in the worker its id hashes to, in one list only, and has
      arrived. */
  ghost predicate LanesSane(s: Solo, n: nat) {
    forall w :: 0 <= w < |s.lanes| ==> LaneSane(s.lanes[w], n) && Belongs(s, w)
  }

  ghost predicate Belongs(s: Solo, w: int)
    requires 0 <= w < |s.lanes|
  {
    forall id :: id in Held(s.lanes[w]) ==>
      id in s.tickets && s.tickets[id].Queued? && id !in s.arriving && LaneOf(s, id) == w
  }

  /** No QUEUED ticket is lost: it is on its way to its worker, or in its worker's lists. */
  ghost predicate NoneLost(s: Solo)
    requires s.lanes != []
  {
    && (forall id :: id in s.tickets && s.tickets[id].Queued? ==>
          id in s.arriving || id in Held(s.lanes[LaneOf(s, id)]))
    && (forall id :: id in s.arriving ==> id in s.tickets && (s.tickets[id].Queued? || s.tickets[id].Cancelled?))
  }

  ghost predicate MatchesSane(s: Solo, n: nat) {
    && (forall i :: 0 <= i < |s.matches| ==> |s.matches[i]| == n)
    && (forall i, id :: 0 <= i < |s.matches| && id in s.matches[i] ==> id in s.tickets && PastQueue(s.tickets[id]))
    && PairwiseApart(s.matches)
    && (forall id :: id in s.cancelled ==> id in s.tickets && s.tickets[id].Cancelled?)
  }

  ghost predicate SoloSane(s: Solo, n: nat) {
    s.lanes != [] && LanesSane(s, n) && NoneLost(s) && MatchesSane(s, n) && !s.broken
  }

  ghost predicate Initial(s: Solo) {
    && s.lanes != [] && (forall w :: 0 <= w < |s.lanes| ==> s.lanes[w] == Lane({}, {}))
    && s.tickets == map[] && s.arriving == {} && s.matches == [] && s.cancelled == {} && !s.broken
  }

  /** What a step must leave alone to keep the history sane. */
  ghost predicate TicketsEvolve(s: Solo, s': Solo) {
    forall id :: id in s.tickets ==>
      && id in s'.tickets && (PastQueue(s.tickets[id]) ==> PastQueue(s'.tickets[id]))
      && (s.tickets[id].Cancelled? ==> s'.tickets[id].Cancelled?)
  }

  lemma MatchesKept(s: Solo, s': Solo, n: nat)
    requires MatchesSane(s, n) && TicketsEvolve(s, s') && s'.matches == s.matches
    requires forall id :: id in s'.cancelled ==> id in s.cancelled || (id in s'.tickets && s'.tickets[id].Cancelled?)
    ensures MatchesSane(s', n)
  {
  }

  lemma NotHeld(s: Solo, n: nat, id: TicketId, w: int)
    requires LanesSane(s, n) && 0 <= w < |s.lanes|
    requires id !in s.tickets || !s.tickets[id].Queued? || id in s.arriving || LaneOf(s, id) != w
    ensures id !in Held(s.lanes[w])
  {
    assert Belongs(s, w);
  }

  lemma InsertedLanes(s: Solo, n: nat, id: TicketId)
    requires SoloSane(s, n) && id in s.arriving
    ensures LanesSane(AfterInsert(s, id), n)
    ensures var v := LaneOf(s, id);
            AfterInsert(s, id).lanes[v]
            == if s.tickets[id].Queued? then Lane(s.lanes[v].waiting + {id}, s.lanes[v].progressing) else s.lanes[v]
  {
    hide WorkerOf, MatchesSane;
    var s', v := AfterInsert(s, id), LaneOf(s, id);
    NotHeld(s, n, id, v);
    assert Without(s.lanes[v], id) == s.lanes[v];
    forall w | 0 <= w < |s'.lanes| ensures LaneSane(s'.lanes[w], n) && Belongs(s', w) {
      assert LaneSane(s.lanes[w], n) && Belongs(s, w);
    }
  }

  lemma InsertedSane(s: Solo, n: nat, id: TicketId)
    requires SoloSane(s, n) && id in s.arriving
    ensures SoloSane(AfterInsert(s, id), n)
  {
    hide WorkerOf, MatchesSane, LanesSane;
    var s', v := AfterInsert(s, id), LaneOf(s, id);
    InsertedLanes(s, n, id);
    MatchesKept(s, s', n);
    forall x | x in s'.tickets && s'.tickets[x].Queued? ensures x in s'.arriving || x in Held(s'.lanes[LaneOf(s', x)]) {
      assert x in s.arriving || x in Held(s.lanes[LaneOf(s, x)]);
    }
  }

  lemma CancelledLaneIs(s: Solo, id: TicketId, w: int)
    requires s.lanes != [] && id in s.tickets && CanChangeStatus(s.tickets[id], Cancelled) && 0 <= w < |s.lanes|
    ensures AfterCancel(s, id).lanes[w] == if w == LaneOf(s, id) then Without(s.lanes[w], id) else s.lanes[w]
    ensures |AfterCancel(s, id).lanes| == |s.lanes|
  {
    hide WorkerOf;
  }

  lemma CancelledBelongs(s: Solo, id: TicketId, w: int)
    requires s.lanes != [] && id in s.tickets && CanChangeStatus(s.tickets[id], Cancelled) && 0 <= w < |s.lanes|
    requires Belongs(s, w)
    ensures |AfterCancel(s, id).lanes| == |s.lanes| && Belongs(AfterCancel(s, id), w)
  {
    hide WorkerOf;
    CancelledLaneIs(s, id, w);
  }

  lemma CancelledLane(s: Solo, n: nat, id: TicketId, w: int)
    requires LanesSane(s, n) && s.lanes != [] && id in s.tickets && CanChangeStatus(s.tickets[id], Cancelled)
    requires 0 <= w < |s.lanes|
    ensures LaneSane(AfterCancel(s, id).lanes[w], n) && Belongs(AfterCancel(s, id), w)
  {
    assert LaneSane(s.lanes[w], n) && Belongs(s, w);
    hide WorkerOf, LaneSane, LanesSane, Without, Held, Belongs, AfterCancel;
    CancelledLaneIs(s, id, w);
    CancelledBelongs(s, id, w);
    WithoutIsSane(s.lanes[w], n, id);
  }

  lemma CancelledLanes(s: Solo, n: nat, id: TicketId)
    requires LanesSane(s, n) && s.lanes != [] && id in s.tickets && CanChangeStatus(s.tickets[id], Cancelled)
    ensures LanesSane(AfterCancel(s, id), n)
  {
    hide WorkerOf, LaneSane, Belongs;
    forall w | 0 <= w < |s.lanes| ensures LaneSane(AfterCancel(s, id).lanes[w], n) && Belongs(AfterCancel(s, id), w) {
      CancelledLane(s, n, id, w);
    }
  }

  lemma CancelledSane(s: Solo, n: nat, id: TicketId)
    requires SoloSane(s, n) && id in s.tickets
    ensures SoloSane(AfterCancel(s, id), n)
  {
    hide WorkerOf, MatchesSane, LanesSane;
    var s' := AfterCancel(s, id);
    if CanChangeStatus(s.tickets[id], Cancelled) {
      CancelledLanes(s, n, id);
      CancelledHistory(s, n, id);
      MatchesKept(s, s', n);
      forall x | x in s'.tickets && s'.tickets[x].Queued? ensures x in s'.arriving || x in Held(s'.lanes[LaneOf(s', x)]) {
        assert x in s.arriving || x in Held(s.lanes[LaneOf(s, x)]);
      }
    }
  }

  lemma CancelledHistory(s: Solo, n: nat, id: TicketId)
    requires s.lanes != [] && id in s.tickets && CanChangeStatus(s.tickets[id], Cancelled)
    ensures TicketsEvolve(s, AfterCancel(s, id))
    ensures AfterCancel(s, id).tickets[id].Cancelled? && AfterCancel(s, id).cancelled == s.cancelled + {id}
  {
  }

  lemma WithoutIsSane(lane: Lane, n: nat, id: TicketId)
    requires LaneSane(lane, n)
    ensures LaneSane(Without(lane, id), n) && Held(Without(lane, id)) == Held(lane) - {id}
  {
  }

  /** All tickets of a match are QUEUED when it completes, so no change to SEARCHING is refused and the
      worker's failure arm is never taken. */
  lemma JobNeverFails(s: Solo, n: nat, w: int)
    requires SoloSane(s, n) && 0 <= w < |s.lanes|
    ensures AllCanSearch(s.tickets, JobMatch(s.lanes[w], n))
    ensures JobMatch(s.lanes[w], n) <= Held(s.lanes[w])
  {
    JobMeans(s.lanes[w], n);
    assert Belongs(s, w);
  }

  lemma JobLanesSane(s: Solo, n: nat, w: int)
    requires SoloSane(s, n) && 0 <= w < |s.lanes|
    ensures LanesSane(AfterSoloJob(s, n, w), n)
  {
    hide AfterJob, JobMatch, Completes, MatchesSane;
    var s' := AfterSoloJob(s, n, w);
    JobNeverFails(s, n, w);
    JobMeans(s.lanes[w], n);
    var m := JobMatch(s.lanes[w], n);
    forall v | 0 <= v < |s'.lanes| ensures LaneSane(s'.lanes[v], n) && Belongs(s', v) {
      assert LaneSane(s.lanes[v], n) && Belongs(s, v) && Belongs(s, w);
    }
  }

  lemma JobLosesNone(s: Solo, n: nat, w: int)
    requires SoloSane(s, n) && 0 <= w < |s.lanes|
    ensures NoneLost(AfterSoloJob(s, n, w))
  {
    hide AfterJob, JobMatch, MatchesSane;
    var s' := AfterSoloJob(s, n, w);
    JobNeverFails(s, n, w);
    JobMeans(s.lanes[w], n);
    NothingMatched(s.lanes[w], n);
    var m := JobMatch(s.lanes[w], n);
    assert Belongs(s, w);
    forall id | id in s'.tickets && s'.tickets[id].Queued?
      ensures id in s'.arriving || id in Held(s'.lanes[LaneOf(s', id)])
    {
      assert id in s.arriving || id in Held(s.lanes[LaneOf(s, id)]);
    }
  }

  lemma NothingMatched(lane: Lane, n: nat)
    ensures !Completes(lane, n) ==> JobMatch(lane, n) == {}
  {
  }

  lemma JobMatchesSane(s: Solo, n: nat, w: int)
    requires SoloSane(s, n) && 0 <= w < |s.lanes|
    ensures MatchesSane(AfterSoloJob(s, n, w), n) && !AfterSoloJob(s, n, w).broken
  {
    hide AfterJob, JobMatch, Completes, WorkerOf, LanesSane, NoneLost;
    var s' := AfterSoloJob(s, n, w);
    JobNeverFails(s, n, w);
    CompletedSize(s, n, w);
    if Completes(s.lanes[w], n) {
      MatchesGrow(s, s', n, JobMatch(s.lanes[w], n));
    } else {
      MatchesKept(s, s', n);
    }
  }

  lemma CompletedSize(s: Solo, n: nat, w: int)
    requires LanesSane(s, n) && 0 <= w < |s.lanes|
    ensures Completes(s.lanes[w], n) ==> |JobMatch(s.lanes[w], n)| == n
    ensures forall id :: id in JobMatch(s.lanes[w], n) ==> id in s.tickets && s.tickets[id].Queued?
  {
    JobMeans(s.lanes[w], n);
    PullMeans(s.lanes[w], n);
    assert Belongs(s, w);
  }

  /** A match of QUEUED tickets shares none with an earlier one. */
  lemma MatchesGrow(s: Solo, s': Solo, n: nat, m: set<TicketId>)
    requires MatchesSane(s, n) && |m| == n
    requires forall id :: id in m ==> id in s.tickets && s.tickets[id].Queued?
    requires s'.matches == s.matches + [m] && s'.cancelled == s.cancelled && s'.tickets == Searched(s.tickets, m)
    ensures MatchesSane(s', n)
  {
    forall i | 0 <= i < |s.matches| ensures s.matches[i] !! m {
      forall id | id in m ensures id !in s.matches[i] {
        assert s.tickets[id].Queued?;
      }
    }
  }

  lemma OthersSane(s: Solo, n: nat, step: Step)
    requires SoloSane(s, n) && Enabled(s, step) && (step.Register? || step.MarkQueued? || step.Outside?)
    ensures SoloSane(Apply(s, n, step), n)
  {
    hide WorkerOf, MatchesSane;
    var s' := Apply(s, n, step);
    forall w | 0 <= w < |s'.lanes| ensures LaneSane(s'.lanes[w], n) && Belongs(s', w) {
      assert LaneSane(s.lanes[w], n) && Belongs(s, w);
    }
    MatchesKept(s, s', n);
    forall x | x in s'.tickets && s'.tickets[x].Queued? ensures x in s'.arriving || x in Held(s'.lanes[LaneOf(s', x)]) {
      if x in s.tickets && s.tickets[x].Queued? {
        assert x in s.arriving || x in Held(s.lanes[LaneOf(s, x)]);
      }
    }
  }

  lemma StaysSane(s: Solo, n: nat, step: Step)
    requires SoloSane(s, n) && Enabled(s, step)
    ensures SoloSane(Apply(s, n, step), n)
  {
    match step
    case Insert(id) => InsertedSane(s, n, id);
    case Cancel(id) => CancelledSane(s, n, id);
    case Job(w) =>
      JobLanesSane(s, n, w);
      JobLosesNone(s, n, w);
      JobMatchesSane(s, n, w);
    case _ => OthersSane(s, n, step);
  }

  ghost predicate IsRun(ss: seq<Solo>, steps: seq<Step>, n: nat) {
    && |ss| == |steps| + 1 && Initial(ss[0])
    && forall i :: 0 <= i < |steps| ==> Enabled(ss[i], steps[i]) && ss[i + 1] == Apply(ss[i], n, steps[i])
  }

  /** Every state of every run is sane, whatever the interleaving and however many workers there are. */
  lemma {:induction false} RunStaysSane(ss: seq<Solo>, steps: seq<Step>, n: nat, k: nat)
    requires IsRun(ss, steps, n) && n > 0 && k < |ss|
    ensures SoloSane(ss[k], n)
  {
    if k > 0 {
      RunStaysSane(ss, steps, n, k - 1);
      assert ss[k] == Apply(ss[k - 1], n, steps[k - 1]);
      StaysSane(ss[k - 1], n, steps[k - 1]);
    }
  }

  lemma {:induction false} RunKeepsHistory(ss: seq<Solo>, steps: seq<Step>, n: nat, i: nat, j: nat)
    requires IsRun(ss, steps, n) && i <= j < |ss|
    ensures ss[i].matches <= ss[j].matches && ss[i].cancelled <= ss[j].cancelled
  {
    if i < j {
      RunKeepsHistory(ss, steps, n, i, j - 1);
      assert ss[j] == Apply(ss[j - 1], n, steps[j - 1]);
    }
  }

  /** Over every interleaving of registering, the two halves of enqueuing, cancelling and matching on any
      number of workers: whoever is in a list is QUEUED and in one list only; a completed match never finds
      a ticket that refuses SEARCHING; matches have exactly n tickets and share none; and a ticket whose
      cancel succeeded at some point is in no list and no match of any later point. */
  lemma SoloMatchesAreSafe(ss: seq<Solo>, steps: seq<Step>, n: nat, i: nat, j: nat)
    requires IsRun(ss, steps, n) && n > 0 && i <= j < |ss|
    ensures !ss[j].broken
    ensures forall w :: 0 <= w < |ss[j].lanes| ==> ss[j].lanes[w].waiting !! ss[j].lanes[w].progressing
    ensures forall w, id :: 0 <= w < |ss[j].lanes| && id in Held(ss[j].lanes[w]) ==>
              id in ss[j].tickets && ss[j].tickets[id].Queued? && id !in ss[i].cancelled
    ensures forall a :: 0 <= a < |ss[j].matches| ==> |ss[j].matches[a]| == n && ss[j].matches[a] !! ss[i].cancelled
    ensures PairwiseApart(ss[j].matches)
  {
    RunStaysSane(ss, steps, n, j);
    RunKeepsHistory(ss, steps, n, i, j);
    forall w, id | 0 <= w < |ss[j].lanes| && id in Held(ss[j].lanes[w])
      ensures id in ss[j].tickets && ss[j].tickets[id].Queued?
    {
      assert Belongs(ss[j], w);
    }
    forall a | 0 <= a < |ss[j].matches| ensures ss[j].matches[a] !! ss[i].cancelled {
      forall id | id in ss[j].matches[a] ensures id !in ss[i].cancelled {
      }
    }
  }

  // ---------- What each step brings about ----------

  /** What changes with one ticket: its status, and what is said of other workers and other tickets stays. */
  ghost predicate OnlyTicket(s: Solo, s': Solo, id: TicketId) {
    && s'.tickets.Keys == s.tickets.Keys && (forall x :: x in s.tickets && x != id ==> s'.tickets[x] == s.tickets[x])
    && (forall x :: x != id ==> (x in s'.arriving <==> x in s.arriving))
    && (forall x :: x != id ==> (x in s'.cancelled <==> x in s.cancelled))
    && |s'.lanes| == |s.lanes| && s'.matches == s.matches && s'.broken == s.broken
    && (forall w, x :: 0 <= w < |s.lanes| && x != id ==>
          (x in s'.lanes[w].waiting <==> x in s.lanes[w].waiting)
          && (x in s'.lanes[w].progressing <==> x in s.lanes[w].progressing))
  }

  /** A new ticket becomes QUEUED and is on its way; any other ticket is turned away and nothing changes. */
  lemma MarkMeans(s: Solo, id: TicketId)
    requires id in s.tickets
    ensures if s.tickets[id].Unset?
            then AfterMark(s, id) == s.(tickets := s.tickets[id := Queued], arriving := s.arriving + {id})
            else AfterMark(s, id) == s
  {
  }

  /** A request that arrives waits at the worker its id hashes to if it is still QUEUED, and nowhere else; a
      request cancelled meanwhile is in no list. */
  lemma InsertMeans(s: Solo, n: nat, id: TicketId)
    requires SoloSane(s, n) && id in s.arriving
    ensures var s' := AfterInsert(s, id);
            && OnlyTicket(s, s', id) && s'.tickets == s.tickets && id !in s'.arriving && s'.cancelled == s.cancelled
            && forall w :: 0 <= w < |s.lanes| ==>
                 && (id in s'.lanes[w].waiting <==> w == id % |s.lanes| && s.tickets[id].Queued?)
                 && id !in s'.lanes[w].progressing
  {
    hide MatchesSane, LaneSane;
    forall w | 0 <= w < |s.lanes| ensures id !in Held(s.lanes[w]) {
      NotHeld(s, n, id, w);
    }
  }

  /** A new or QUEUED ticket becomes CANCELLED and is in no list; for any other nothing changes. */
  lemma CancelMeans(s: Solo, n: nat, id: TicketId)
    requires SoloSane(s, n) && id in s.tickets
    ensures var s' := AfterCancel(s, id);
            if s.tickets[id].Unset? || s.tickets[id].Queued?
            then && OnlyTicket(s, s', id) && s'.tickets[id] == Cancelled && id in s'.cancelled
                 && s'.arriving == s.arriving && forall w :: 0 <= w < |s.lanes| ==> id !in Held(s'.lanes[w])
            else s' == s
  {
    hide MatchesSane, LaneSane, WorkerOf;
    forall w | 0 <= w < |s.lanes| && w != LaneOf(s, id) ensures id !in Held(s.lanes[w]) {
      NotHeld(s, n, id, w);
    }
    if CanChangeStatus(s.tickets[id], Cancelled) {
      forall w | 0 <= w < |s.lanes|
        ensures AfterCancel(s, id).lanes[w] == if w == LaneOf(s, id) then Without(s.lanes[w], id) else s.lanes[w]
      {
        CancelledLaneIs(s, id, w);
      }
    }
  }

  /** A job with n tickets or more at hand matches n of them: they are SEARCHING and in no list of the worker.
      With fewer it matches nobody and all are in progress. No other status and no other worker changes. */
  lemma JobMeansForAll(s: Solo, n: nat, w: int)
    requires SoloSane(s, n) && 0 <= w < |s.lanes|
    ensures var s', m := AfterSoloJob(s, n, w), JobMatch(s.lanes[w], n);
            && s'.tickets.Keys == s.tickets.Keys && !s'.broken
            && s'.arriving == s.arriving && s'.cancelled == s.cancelled
            && (forall id :: id in m ==> id in Held(s.lanes[w]) && id in s.tickets && s'.tickets[id] == Searching)
            && (forall id :: id in s.tickets && id !in m ==> s'.tickets[id] == s.tickets[id])
            && |s'.lanes| == |s.lanes| && (forall v :: 0 <= v < |s.lanes| && v != w ==> s'.lanes[v] == s.lanes[v])
            && Held(s'.lanes[w]) == Held(s.lanes[w]) - m
            && (if |Held(s.lanes[w])| >= n then |m| == n && s'.matches == s.matches + [m]
                else m == {} && s'.matches == s.matches && s'.lanes[w] == Lane({}, Held(s.lanes[w])))
  {
    JobNeverFails(s, n, w);
    assert Belongs(s, w) && LaneSane(s.lanes[w], n);
    hide SoloSane, AfterJob, JobMatch, Completes, Searched, AllCanSearch, WorkerOf;
    JobMeans(s.lanes[w], n);
    JobCompletesAt(s.lanes[w], n);
    SearchedMeans(s.tickets, JobMatch(s.lanes[w], n));
    NothingSearched(s.tickets);
    NothingMatched(s.lanes[w], n);
  }

  lemma JobCompletesAt(lane: Lane, n: nat)
    requires LaneSane(lane, n)
    ensures Completes(lane, n) <==> |Held(lane)| >= n
  {
    PullMeans(lane, n);
    HeldSize(lane);
    HeldSize(Pull(lane, n));
  }

  /** Over every run: right after a job the tickets it matched are SEARCHING, and nobody else's status moved. */
  lemma MatchedAreSearching(ss: seq<Solo>, steps: seq<Step>, n: nat, k: nat, w: int)
    requires IsRun(ss, steps, n) && n > 0 && k < |steps| && steps[k] == Job(w)
    ensures 0 <= w < |ss[k].lanes| && ss[k + 1].tickets.Keys == ss[k].tickets.Keys
    ensures forall id :: id in JobMatch(ss[k].lanes[w], n) ==>
              id in ss[k].tickets && ss[k].tickets[id] == Queued && ss[k + 1].tickets[id] == Searching
    ensures forall id :: id in ss[k].tickets && id !in JobMatch(ss[k].lanes[w], n) ==>
              ss[k + 1].tickets[id] == ss[k].tickets[id]
    ensures ss[k + 1].matches == if |Held(ss[k].lanes[w])| >= n then ss[k].matches + [JobMatch(ss[k].lanes[w], n)]
                                 else ss[k].matches
  {
    RunStaysSane(ss, steps, n, k);
    assert ss[k + 1] == Apply(ss[k], n, steps[k]);
    assert Belongs(ss[k], w);
    hide SoloSane, AfterSoloJob, JobMatch;
    JobMeansForAll(ss[k], n, w);
  }

  lemma OneInserted(s0: Solo, n: nat) returns (s1: Solo, s2: Solo, s3: Solo)
    requires s0 == Solo([Lane({}, {})], map[], {}, [], {}, false)
    ensures Enabled(s0, Register(7)) && s1 == Apply(s0, n, Register(7))
    ensures Enabled(s1, MarkQueued(7)) && s2 == Apply(s1, n, MarkQueued(7))
    ensures Enabled(s2, Insert(7)) && s3 == Apply(s2, n, Insert(7))
    ensures s3 == Solo([Lane({7}, {})], map[7 := Queued], {}, [], {}, false)
  {
    s1 := s0.(tickets := map[7 := Unset]);
    s2 := s1.(tickets := map[7 := Queued], arriving := {7});
    s3 := AfterInsert(s2, 7);
    assert WorkerOf(1, 7) == 0;
    assert s3.lanes[0].waiting == {7};
    assert s3.lanes == [Lane({7}, {})];
  }

  lemma OneMatched(s: Solo, n: nat)
    requires n == 1 && SoloSane(s, n) && s == Solo([Lane({7}, {})], map[7 := Queued], {}, [], {}, false)
    ensures Enabled(s, Job(0)) && AfterSoloJob(s, n, 0).matches == [{7}]
    ensures 7 in AfterSoloJob(s, n, 0).tickets && AfterSoloJob(s, n, 0).tickets[7] == Searching
  {
    hide AfterSoloJob, SoloSane, JobMatch;
    JobMeansForAll(s, n, 0);
    var held, m := Held(s.lanes[0]), JobMatch(s.lanes[0], n);
    assert held == {7} && |held| == 1;
    forall id | id in m ensures id == 7 {
      assert id in held;
    }
    OneOfOne(m);
    assert 7 in m;
  }

  /** A run in which a ticket is registered, queued, inserted and matched. */
  lemma SomeMatchHappens()
    ensures exists ss: seq<Solo>, steps: seq<Step> ::
      && IsRun(ss, steps, 1) && |ss| == 5 && ss[4].matches == [{7}]
      && 7 in ss[4].tickets && ss[4].tickets[7] == Searching
  {
    hide Enabled, Apply, AfterSoloJob, SoloSane;
    var s0 := Solo([Lane({}, {})], map[], {}, [], {}, false);
    var s1, s2, s3 := OneInserted(s0, 1);
    OneIsSane([s0, s1, s2, s3]);
    OneMatched(s3, 1);
    var s4 := Apply(s3, 1, Job(0));
    JobIsStep(s3, 1, 0);
    var ss, steps := [s0, s1, s2, s3, s4], [Register(7), MarkQueued(7), Insert(7), Job(0)];
    assert IsRun(ss, steps, 1);
  }

  lemma OneIsSane(ss: seq<Solo>)
    requires |ss| == 4 && IsRun(ss, [Register(7), MarkQueued(7), Insert(7)], 1)
    ensures SoloSane(ss[3], 1)
  {
    RunStaysSane(ss, [Register(7), MarkQueued(7), Insert(7)], 1, 3);
  }

  lemma JobIsStep(s: Solo, n: nat, w: int)
    requires Enabled(s, Job(w))
    ensures Apply(s, n, Job(w)) == AfterSoloJob(s, n, w)
  {
    hide AfterSoloJob;
  }

  lemma OneOfOne(m: set<TicketId>)
    requires |m| == 1
    ensures (forall id :: id in m ==> id == 7) ==> m == {7}
  {
    var id := Pick(m);
    assert m == {id} by {
      assert |m - {id}| == 0;
    }
  }

  // ---------- Oldest first ----------

  /** Nobody in progress at worker w is younger than anybody waiting there. */
  ghost predicate InOrder(s: Solo, w: int)
    requires 0 <= w < |s.lanes|
  {
    Below(s.lanes[w].progressing, s.lanes[w].waiting)
  }

  /** A request enters a worker behind everybody in progress there. */
  ghost predicate EntersBehind(s: Solo, step: Step, w: int)
    requires 0 <= w < |s.lanes|
  {
    step.Insert? && LaneOf(s, step.id) == w ==> Below(s.lanes[w].progressing, {step.id})
  }

  lemma FewerInOrder(lane: Lane, id: TicketId)
    requires Below(lane.progressing, lane.waiting)
    ensures Below(Without(lane, id).progressing, Without(lane, id).waiting)
    ensures Below(lane.progressing, {id}) ==> Below(lane.progressing, lane.waiting + {id})
  {
  }

  /** What one step can make of one worker's lists. */
  ghost predicate LaneMoves(s: Solo, n: nat, step: Step, w: int, lane: Lane)
    requires 0 <= w < |s.lanes|
  {
    || lane == s.lanes[w]
    || (step.Insert? && LaneOf(s, step.id) == w && lane == Entered(s.lanes[w], step.id, true))
    || ((step.Insert? || step.Cancel?) && lane == Without(s.lanes[w], step.id))
    || (step == Job(w) && lane == AfterJob(s.lanes[w], n))
  }

  lemma StepMovesLane(s: Solo, n: nat, step: Step, w: int)
    requires Enabled(s, step) && 0 <= w < |s.lanes|
    ensures |Apply(s, n, step).lanes| == |s.lanes| && LaneMoves(s, n, step, w, Apply(s, n, step).lanes[w])
  {
    hide WorkerOf, AfterJob, JobMatch, Completes, Without, AfterCancel;
    if step.Cancel? {
      if CanChangeStatus(s.tickets[step.id], Cancelled) {
        CancelledLaneIs(s, step.id, w);
      } else {
        assert AfterCancel(s, step.id) == s by { CancelRefused(s, step.id); }
      }
    }
  }

  lemma CancelRefused(s: Solo, id: TicketId)
    requires s.lanes != [] && id in s.tickets && !CanChangeStatus(s.tickets[id], Cancelled)
    ensures AfterCancel(s, id) == s
  {
  }

  lemma OrderKept(s: Solo, n: nat, step: Step, w: int)
    requires SoloSane(s, n) && Enabled(s, step) && 0 <= w < |s.lanes|
    requires InOrder(s, w) && EntersBehind(s, step, w)
    ensures |Apply(s, n, step).lanes| == |s.lanes| && InOrder(Apply(s, n, step), w)
  {
    assert LaneSane(s.lanes[w], n);
    hide SoloSane, WorkerOf, Below, LaneSane, AfterJob, Without, Apply, Enabled;
    StepMovesLane(s, n, step, w);
    JobTakesOldest(s.lanes[w], n);
    if step.Insert? || step.Cancel? {
      FewerInOrder(s.lanes[w], step.id);
    }
  }

  ghost predicate InsertedBefore(steps: seq<Step>, k: nat, id: TicketId) {
    exists a :: 0 <= a < k && a < |steps| && steps[a] == Insert(id)
  }

  /** What a worker holds after a step it held before, or the step has just inserted it. */
  lemma StepHolds(s: Solo, n: nat, step: Step, w: int, id: TicketId)
    requires SoloSane(s, n) && Enabled(s, step) && 0 <= w < |s.lanes|
    ensures |Apply(s, n, step).lanes| == |s.lanes|
    ensures id in Held(Apply(s, n, step).lanes[w]) ==> id in Held(s.lanes[w]) || step == Insert(id)
  {
    assert LaneSane(s.lanes[w], n);
    hide SoloSane, WorkerOf, LaneSane, AfterJob, JobMatch, Apply, Enabled;
    StepMovesLane(s, n, step, w);
    JobMeans(s.lanes[w], n);
  }

  /** Every ticket a worker holds was inserted by an earlier step. */
  lemma {:induction false} HeldWereInserted(ss: seq<Solo>, steps: seq<Step>, n: nat, w: int, k: nat, id: TicketId)
    requires IsRun(ss, steps, n) && n > 0 && k < |ss| && 0 <= w < |ss[0].lanes|
    ensures |ss[k].lanes| == |ss[0].lanes|
    ensures id in Held(ss[k].lanes[w]) ==> InsertedBefore(steps, k, id) && WorkerOf(|ss[0].lanes|, id) == w
  {
    hide Apply, Enabled, WorkerOf, LanesSane, MatchesSane, NoneLost, Initial;
    RunStaysSane(ss, steps, n, k);
    if k == 0 {
      StartsEmpty(ss[0], w);
    } else {
      HeldWereInserted(ss, steps, n, w, k - 1, id);
      RunStaysSane(ss, steps, n, k - 1);
      assert ss[k] == Apply(ss[k - 1], n, steps[k - 1]);
      StepHolds(ss[k - 1], n, steps[k - 1], w, id);
      if LaneOf(ss[k], id) != w {
        NotHeld(ss[k], n, id, w);
      }
    }
  }

  lemma StartsEmpty(s: Solo, w: int)
    requires Initial(s) && 0 <= w < |s.lanes|
    ensures Held(s.lanes[w]) == {}
  {
  }

  /** Up to step k, ids enter worker w in increasing order. */
  ghost predicate EntersInOrder(steps: seq<Step>, k: nat, count: nat, w: int)
    requires count > 0 && k <= |steps|
  {
    forall a, b :: 0 <= a < b < k && steps[a].Insert? && steps[b].Insert?
                   && WorkerOf(count, steps[a].id) == w && WorkerOf(count, steps[b].id) == w
                   ==> steps[a].id < steps[b].id
  }

  /** Then each enters behind everybody in progress there. */
  lemma InOrderEntersBehind(ss: seq<Solo>, steps: seq<Step>, n: nat, w: int, i: nat)
    requires IsRun(ss, steps, n) && n > 0 && i < |steps| && 0 <= w < |ss[0].lanes|
    requires EntersInOrder(steps, i + 1, |ss[0].lanes|, w)
    ensures |ss[i].lanes| == |ss[0].lanes| && EntersBehind(ss[i], steps[i], w)
  {
    hide WorkerOf, Apply, Enabled, Initial;
    HeldWereInserted(ss, steps, n, w, i, 0);
    if steps[i].Insert? && LaneOf(ss[i], steps[i].id) == w {
      forall x | x in ss[i].lanes[w].progressing ensures x < steps[i].id {
        HeldWereInserted(ss, steps, n, w, i, x);
        var a :| 0 <= a < i && steps[a] == Insert(x);
      }
    }
  }

  lemma SoonerInOrder(steps: seq<Step>, i: nat, k: nat, count: nat, w: int)
    requires count > 0 && i <= k <= |steps| && EntersInOrder(steps, k, count, w)
    ensures EntersInOrder(steps, i, count, w)
  {
  }

  lemma {:induction false} RunKeepsOrder(ss: seq<Solo>, steps: seq<Step>, n: nat, w: int, k: nat)
    requires IsRun(ss, steps, n) && n > 0 && k < |ss| && 0 <= w < |ss[0].lanes|
    requires EntersInOrder(steps, k, |ss[0].lanes|, w)
    ensures |ss[k].lanes| == |ss[0].lanes| && InOrder(ss[k], w)
  {
    hide EntersInOrder, Apply, Enabled, EntersBehind, SoloSane;
    if k > 0 {
      hide Initial, InOrder;
      SoonerInOrder(steps, k - 1, k, |ss[0].lanes|, w);
      RunKeepsOrder(ss, steps, n, w, k - 1);
      RunStaysSane(ss, steps, n, k - 1);
      InOrderEntersBehind(ss, steps, n, w, k - 1);
      assert ss[k] == Apply(ss[k - 1], n, steps[k - 1]);
      OrderKept(ss[k - 1], n, steps[k - 1], w);
    }
  }

  /** If the ids that enter a worker come in increasing order, every match there takes the oldest: each matched
      id is smaller than every id it leaves in the worker's lists. */
  lemma MatchesTakeOldest(ss: seq<Solo>, steps: seq<Step>, n: nat, w: int, k: nat)
    requires IsRun(ss, steps, n) && n > 0 && k < |steps| && steps[k] == Job(w)
    requires 0 <= w < |ss[0].lanes| && EntersInOrder(steps, k, |ss[0].lanes|, w)
    ensures 0 <= w < |ss[k].lanes| == |ss[k + 1].lanes|
    ensures Below(JobMatch(ss[k].lanes[w], n), Held(ss[k + 1].lanes[w]))
  {
    RunKeepsOrder(ss, steps, n, w, k);
    RunStaysSane(ss, steps, n, k);
    assert ss[k + 1] == Apply(ss[k], n, steps[k]);
    assert LaneSane(ss[k].lanes[w], n);
    JobTakesOldest(ss[k].lanes[w], n);
    assert ss[k + 1].lanes[w] == AfterJob(ss[k].lanes[w], n);
  }
}
