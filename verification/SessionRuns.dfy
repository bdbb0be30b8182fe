/** Every handler keeps the engine sane; what follows for every run; and why the job queue, left alone,
    ends every session. */
module SessionRuns {
  import opened Tickets
  import opened Ordered
  import opened TimedQueue
  import opened Registries
  import opened SessionProtocol
  import opened SessionSafety
  import opened SessionLife

  ghost predicate Core(e: Engine) {
    EarlySane(e) && LateSane(e)
  }

  // ---------- Each handler, in a sane state ----------

  lemma LiveCanChange(e: Engine, m: TicketId, s: Status)
    requires SessionsSane(e) && m in e.sessions
    ensures SessionCanChange(e, m, s) <==> CanChangeStatus(e.sessions[m].status, s)
  {
    LiveTickets(e, m);
  }

  lemma FailIs(e: Engine, m: TicketId)
    requires Core(e)
    ensures AfterFail(e, m) == if m in e.sessions then Dropped(e, m, Failed) else e
    ensures Core(AfterFail(e, m))
  {
    if m in e.sessions {
      LiveTickets(e, m);
      LiveCanChange(e, m, Failed);
      DroppedSane(e, m, Failed);
    }
  }

  lemma TimeoutIs(e: Engine, m: TicketId, awaited: Status)
    requires Core(e)
    ensures AfterTimeout(e, m, awaited)
         == if m in e.sessions && e.sessions[m].status == awaited then Dropped(e, m, TimedOut) else e
    ensures Core(AfterTimeout(e, m, awaited))
  {
    if m in e.sessions {
      LiveTickets(e, m);
      LiveCanChange(e, m, TimedOut);
      DroppedSane(e, m, TimedOut);
    }
  }

  /** Only a placed session completes, and then with everybody's acceptance. */
  lemma CompleteIs(e: Engine, m: TicketId, success: bool, zoneOk: bool)
    requires Core(e)
    ensures AfterComplete(e, m, success, zoneOk)
         == (if m !in e.sessions then e
             else if success && zoneOk && e.sessions[m].status.Placing?
             then Dropped(e, m, Completed).(done := e.done[m := e.sessions[m]])
             else Dropped(e, m, Failed))
    ensures Core(AfterComplete(e, m, success, zoneOk))
  {
    hide EarlySane, SessionsSane, IndexSane, LogSane, DoneSane, CompletedSane, Dropped;
    FailIs(e, m);
    if m in e.sessions {
      LiveTickets(e, m);
      LiveCanChange(e, m, Completed);
      if e.sessions[m].status.Placing? {
        CompletedSessionSane(e, m);
      }
    }
  }

  /** The session after one more acceptance. */
  function WithAnswer(s: Session, p: PlayerKey): Session {
    s.(answers := s.answers[p := Answer(true, true)])
  }

  lemma SameStatus(e: Engine, m: TicketId)
    requires SessionsSane(e) && m in e.sessions
    ensures SetAll(e.status, ToSet(e.sessions[m].tickets), e.sessions[m].status) == e.status
  {
    LiveTickets(e, m);
    var same := SetAll(e.status, ToSet(e.sessions[m].tickets), e.sessions[m].status);
    forall id | id in e.status ensures same[id] == e.status[id] {
    }
    assert same.Keys == e.status.Keys;
  }

  lemma AcceptFits(e: Engine, m: TicketId, p: PlayerKey)
    requires SessionsSane(e) && m in e.sessions && e.sessions[m].status.RequiresAcceptance?
    requires p in e.sessions[m].answers && !e.sessions[m].answers[p].responded
    ensures FirstAnswer(e, m, Accepted(e.sessions[m], p), p) && UpdateFits(e, m, Accepted(e.sessions[m], p))
  {
    assert SessionSane(e.info, e.status, m, e.sessions[m]);
  }

  /** The session after an acceptance that counts: placed if it was the last. */
  function Accepted(s: Session, p: PlayerKey): Session {
    if AllAccepted(WithAnswer(s, p)) then WithAnswer(s, p).(status := Placing) else WithAnswer(s, p)
  }

  lemma AcceptRecords(e: Engine, p: PlayerKey, now: int)
    requires SessionsSane(e) && Counts(e, p) && !AllAccepted(WithAnswer(e.sessions[e.index[p]], p))
    ensures AfterAnswer(e, p, true, now)
         == Updated(e, e.index[p], WithAnswer(e.sessions[e.index[p]], p), Entry(e.index[p], p, true))
  {
    hide SessionsSane;
    SameStatus(e, e.index[p]);
  }

  lemma AcceptPlaces(e: Engine, p: PlayerKey, now: int)
    requires SessionsSane(e) && Counts(e, p) && AllAccepted(WithAnswer(e.sessions[e.index[p]], p))
    ensures AfterAnswer(e, p, true, now)
         == Updated(e, e.index[p], WithAnswer(e.sessions[e.index[p]], p).(status := Placing), Entry(e.index[p], p, true))
            .(jobs := PlaceJobs(e.jobs, e.index[p], now))
  {
    hide SessionsSane, PlaceJobs, SetAll;
    var m := e.index[p];
    LiveTickets(e, m);
    var e1 := Recorded(e, m, p, true);
    assert e1.sessions[m] == WithAnswer(e.sessions[m], p);
    assert SessionCanChange(e1, m, Placing);
  }

  /** An acceptance that counts is recorded; the last one also starts the placement. */
  lemma AcceptIs(e: Engine, p: PlayerKey, now: int)
    requires Core(e) && Counts(e, p)
    ensures var m := e.index[p];
            var s := Accepted(e.sessions[m], p);
            AfterAnswer(e, p, true, now)
            == Updated(e, m, s, Entry(m, p, true))
               .(jobs := if s.status.Placing? then PlaceJobs(e.jobs, m, now) else e.jobs)
    ensures Core(AfterAnswer(e, p, true, now))
  {
    hide EarlySane, SessionsSane, IndexSane, LogSane, DoneSane, CompletedSane, AfterAnswer, UpdateFits, FirstAnswer;
    var m := e.index[p];
    AcceptFits(e, m, p);
    if AllAccepted(WithAnswer(e.sessions[m], p)) {
      AcceptPlaces(e, p, now);
    } else {
      AcceptRecords(e, p, now);
    }
    var s := Accepted(e.sessions[m], p);
    UpdatedSane(e, m, s, p);
    HistoryDiffers(Updated(e, m, s, Entry(m, p, true)), AfterAnswer(e, p, true, now));
  }

  lemma RejectDrops(e: Engine, p: PlayerKey, now: int)
    requires SessionsSane(e) && Counts(e, p)
    ensures AfterAnswer(e, p, false, now) == Rejected(e, e.index[p], p, now + DODGE_PENALTY_MSEC)
  {
    hide SessionsSane, SetAll, Released;
    var m := e.index[p];
    LiveTickets(e, m);
    var e1 := Recorded(e, m, p, false);
    assert e1.sessions[m].answers.Keys == e.sessions[m].answers.Keys;
    assert e1.sessions - {m} == e.sessions - {m};
    assert SessionCanChange(e1, m, Failed);
  }

  lemma RejectIs(e: Engine, p: PlayerKey, now: int)
    requires Core(e) && Counts(e, p)
    ensures AfterAnswer(e, p, false, now) == Rejected(e, e.index[p], p, now + DODGE_PENALTY_MSEC)
    ensures Core(AfterAnswer(e, p, false, now))
  {
    hide EarlySane, SessionsSane, IndexSane, LogSane, DoneSane, CompletedSane;
    var m := e.index[p];
    RejectedSane(e, m, p, now + DODGE_PENALTY_MSEC);
    RejectDrops(e, p, now);
  }

  lemma AnswerCore(e: Engine, p: PlayerKey, accept: bool, now: int)
    requires Core(e)
    ensures Core(AfterAnswer(e, p, accept, now))
  {
    hide Core;
    if Counts(e, p) {
      if accept {
        AcceptIs(e, p, now);
      } else {
        RejectIs(e, p, now);
      }
    }
  }

  /** A match becomes a session exactly when there is a world for it and none of its players is in a session;
      otherwise all its tickets fail, and no session is touched. */
  lemma CreateIs(e: Engine, list: seq<TicketId>, now: int, worldFound: bool)
    requires Core(e) && list in e.flight
    ensures var e' := AfterCreate(e.(flight := e.flight - {list}), list, now, worldFound);
            && list != []
            && e' == (if worldFound && PlayersOf(e.info, list) !! e.index.Keys then Created(e, list, now)
                      else NotifiedFailure(e.(flight := e.flight - {list}), ToSet(list)))
            && Core(e')
  {
    var e0 := e.(flight := e.flight - {list});
    FlightList(e, list);
    FlightApart(e, list);
    FlightFailedSane(e, list);
    SearchingIsNoSession(e, list[0]);
    if worldFound && PlayersOf(e.info, list) !! e.index.Keys {
      CreatedSane(e, list, now);
      CreateOpens(e, list, now);
    }
  }

  lemma SearchingIsNoSession(e: Engine, m: TicketId)
    requires SessionsSane(e) && m in e.status && e.status[m].Searching?
    ensures m !in e.sessions
  {
    if m in e.sessions {
      SearchingNotLive(e, m, m);
      LiveTickets(e, m);
    }
  }

  lemma OpenedCanAsk(e: Engine, list: seq<TicketId>)
    requires list != [] && forall id :: id in list ==> id in e.status && e.status[id].Searching?
    ensures SessionCanChange(Opened(e, list), list[0], RequiresAcceptance)
  {
    hide Blank, PlayersOf, Claimed;
  }

  lemma CreateOpens(e: Engine, list: seq<TicketId>, now: int)
    requires Core(e) && Creatable(e, list) && list[0] !in e.sessions
    ensures AfterCreate(e.(flight := e.flight - {list}), list, now, true) == Created(e, list, now)
  {
    FlightList(e, list);
    FlightApart(e, list);
    CreateOpensPlainly(e, e.(flight := e.flight - {list}), list, now);
  }

  lemma CreateOpensPlainly(e: Engine, e0: Engine, list: seq<TicketId>, now: int)
    requires e0 == e.(flight := e.flight - {list}) && Creatable(e, list) && list[0] !in e.sessions
    requires NoDuplicates(list) && Apart(e.info, ToSet(list))
    requires forall id :: id in list ==> id in e.status && e.status[id].Searching?
    ensures AfterCreate(e0, list, now, true) == Created(e, list, now)
  {
    hide Blank, PlayersOf, Claimed, AcceptJobs, SessionCanChange, NoDuplicates, Apart, SetAll;
    var m := list[0];
    OpenedCanAsk(e0, list);
    var e1 := Moved(Opened(e0, list), m, RequiresAcceptance);
    assert e1.sessions == e.sessions[m := Session(list, RequiresAcceptance, Blank(e.info, list))];
    assert OfParty(e1, ToSet(list)) == OfParty(e, ToSet(list));
    assert AcceptJobs(e0, list, now) == AcceptJobs(e, list, now) by {
      SameAcceptJobs(e0, e, list, now);
    }
  }

  lemma SameAcceptJobs(e0: Engine, e: Engine, list: seq<TicketId>, now: int)
    requires e0.info == e.info && e0.jobs == e.jobs && list != []
    ensures AcceptJobs(e0, list, now) == AcceptJobs(e, list, now)
  {
  }

  // ---------- Stopping ----------

  lemma HolderFacts(e: Engine, toParty: bool, p: PlayerKey, id: TicketId)
    requires EarlySane(e) && id in Holders(e, toParty, p)
    ensures id in e.info && id in e.status && id in e.route && e.route[id] == toParty
    ensures p in e.info[id].players && Registered(e, id)
  {
    hide FlightSane, RegistriesSane, IsParty;
  }

  /** The player's registered ticket is asking, and the solo manager is told to stop. */
  ghost predicate StopIsAnswer(e: Engine, p: PlayerKey, toParty: bool) {
    && !toParty && Holders(e, toParty, p) != {}
    && var id := Pick(Holders(e, toParty, p)); id in e.status && e.status[id].RequiresAcceptance?
  }

  /** A stop is a rejection, or a cancel of the player's registered ticket, or nothing. */
  lemma StopIs(e: Engine, p: PlayerKey, toParty: bool, dodge: bool, now: int)
    requires Core(e)
    ensures var e' := AfterStop(e, p, toParty, dodge, now);
            && (if Holders(e, toParty, p) == {} then e' == e
                else if StopIsAnswer(e, p, toParty) then e' == AfterAnswer(e, p, false, now)
                else && e'.(penalties := e.penalties) == AfterCancel(e, Pick(Holders(e, toParty, p)), toParty)
                     && e'.sessions == e.sessions && e'.log == e.log && e'.jobs == e.jobs)
            && Core(e')
  {
    hide EarlySane, LateSane, Holders, AfterCancel, AfterAnswer;
    if Holders(e, toParty, p) != {} {
      var id := Pick(Holders(e, toParty, p));
      HolderFacts(e, toParty, p, id);
      if StopIsAnswer(e, p, toParty) {
        AnswerCore(e, p, false, now);
      } else {
        CancelledSane(e, id);
        CancelLeavesSessions(e, id, toParty);
        HistoryDiffers(AfterCancel(e, id, toParty), AfterStop(e, p, toParty, dodge, now));
      }
    }
  }

  lemma CancelLeavesSessions(e: Engine, id: TicketId, toParty: bool)
    requires id in e.status
    ensures var e' := AfterCancel(e, id, toParty);
            e'.sessions == e.sessions && e'.log == e.log && e'.penalties == e.penalties && e'.jobs == e.jobs
    ensures var e' := AfterCancel(e, id, toParty);
            forall x :: x in e.status && (x != id || Stage(e.status[id]) >= 2) ==>
              x in e'.status && e'.status[x] == e.status[x]
  {
  }

  // ---------- Pending jobs ----------

  lemma {:induction false} InsertPending(q: Queue<Job>, due: int, x: Job, j: Job)
    ensures Pending(Insert(q, due, x), j) <==> j == x || Pending(q, j)
  {
    if q == [] || q[|q| - 1].0 <= due {
      PendingLast(q, (due, x), j);
    } else {
      var front, last := q[..|q| - 1], q[|q| - 1];
      InsertPending(front, due, x, j);
      PendingLast(Insert(front, due, x), last, j);
      PendingLast(front, last, j);
      assert q == front + [last];
    }
  }

  lemma PendingLast(q: Queue<Job>, x: (int, Job), j: Job)
    ensures Pending(q + [x], j) <==> j == x.1 || Pending(q, j)
  {
    if j == x.1 {
      assert (q + [x])[|q|].1 == j;
    }
    if Pending(q, j) {
      var i :| 0 <= i < |q| && q[i].1 == j;
      assert (q + [x])[i].1 == j;
    }
  }

  lemma PlaceJobsPending(q: Queue<Job>, m: TicketId, now: int, j: Job)
    ensures Pending(PlaceJobs(q, m, now), j) <==> j == TimeoutPlace(m) || j == Complete(m) || Pending(q, j)
  {
    InsertPending(q, now + PLACE_TIMEOUT_MSEC, TimeoutPlace(m), j);
    InsertPending(Insert(q, now + PLACE_TIMEOUT_MSEC, TimeoutPlace(m)), now + COMPLETION_DELAY_MSEC, Complete(m), j);
  }

  lemma {:induction false} AutoAcceptsPending(q: Queue<Job>, now: int, players: seq<PlayerKey>, j: Job)
    requires Pending(q, j)
    ensures Pending(AutoAccepts(q, now, players), j)
  {
    if players != [] {
      var front := players[..|players| - 1];
      AutoAcceptsPending(q, now, front, j);
      InsertPending(AutoAccepts(q, now, front), now + AUTO_ACCEPT_DELAY_MSEC * |players|,
                    AutoAccept(players[|players| - 1]), j);
    }
  }

  lemma AcceptJobsPending(e: Engine, list: seq<TicketId>, now: int, j: Job)
    requires list != [] && (j == TimeoutAccept(list[0]) || Pending(e.jobs, j))
    ensures Pending(AcceptJobs(e, list, now), j)
  {
    InsertPending(e.jobs, now + ACCEPT_TIMEOUT_MSEC, TimeoutAccept(list[0]), j);
    AutoAcceptsPending(Insert(e.jobs, now + ACCEPT_TIMEOUT_MSEC, TimeoutAccept(list[0])), now, Roster(e.info, list), j);
  }

  ghost predicate MorePending(q: Queue<Job>, q': Queue<Job>) {
    forall j :: Pending(q, j) ==> Pending(q', j)
  }

  /** Sessions only leave, or one of them changes into a state that has its jobs. */
  lemma JobsKept(e: Engine, e': Engine, except: set<Job>)
    requires JobsSane(e, except) && MorePending(e.jobs, e'.jobs)
    requires forall m :: m in e'.sessions ==>
               (m in e.sessions && e'.sessions[m].status == e.sessions[m].status)
               || JobsFor(e'.jobs, m, e'.sessions[m].status, except)
    ensures JobsSane(e', except)
  {
    hide Pending;
  }

  lemma AnswerJobs(e: Engine, p: PlayerKey, accept: bool, now: int)
    requires Core(e) && JobsSane(e, {})
    ensures JobsSane(AfterAnswer(e, p, accept, now), {})
  {
    hide Core, Pending, PlaceJobs;
    if Counts(e, p) {
      var m, e' := e.index[p], AfterAnswer(e, p, accept, now);
      if accept {
        AcceptIs(e, p, now);
        forall j ensures Pending(PlaceJobs(e.jobs, m, now), j)
                         <==> j == TimeoutPlace(m) || j == Complete(m) || Pending(e.jobs, j)
        {
          PlaceJobsPending(e.jobs, m, now, j);
        }
      } else {
        RejectIs(e, p, now);
      }
      JobsKept(e, e', {});
    }
  }

  lemma StopJobs(e: Engine, p: PlayerKey, toParty: bool, dodge: bool, now: int)
    requires Core(e) && JobsSane(e, {})
    ensures JobsSane(AfterStop(e, p, toParty, dodge, now), {})
  {
    hide Core, JobsFor, AfterAnswer, AfterStop, AfterCancel, Holders;
    StopIs(e, p, toParty, dodge, now);
    AnswerJobs(e, p, false, now);
  }

  lemma CreateJobs(e: Engine, list: seq<TicketId>, now: int, worldFound: bool)
    requires Core(e) && JobsSane(e, {}) && list in e.flight
    ensures JobsSane(AfterCreate(e.(flight := e.flight - {list}), list, now, worldFound), {})
  {
    hide Core, Pending, AcceptJobs;
    CreateIs(e, list, now, worldFound);
    var e' := AfterCreate(e.(flight := e.flight - {list}), list, now, worldFound);
    forall j | Pending(e.jobs, j) || j == TimeoutAccept(list[0]) ensures Pending(AcceptJobs(e, list, now), j) {
      AcceptJobsPending(e, list, now, j);
    }
    JobsKept(e, e', {});
  }

  /** Taking the first job off the queue excepts just that job. */
  lemma PoppedJobs(e: Engine)
    requires JobsSane(e, {}) && e.jobs != []
    ensures JobsSane(e.(jobs := e.jobs[1..]), {e.jobs[0].1})
  {
    var e1 := e.(jobs := e.jobs[1..]);
    forall j | Pending(e.jobs, j) ensures j == e.jobs[0].1 || Pending(e1.jobs, j) {
      var i :| 0 <= i < |e.jobs| && e.jobs[i].1 == j;
      if i > 0 {
        assert e1.jobs[i - 1].1 == j;
      }
    }
    forall m | m in e1.sessions ensures JobsFor(e1.jobs, m, e1.sessions[m].status, {e.jobs[0].1}) {
      assert JobsFor(e.jobs, m, e.sessions[m].status, {});
    }
  }

  /** Whether a session still needs the job that was just taken. */
  ghost predicate Needs(e: Engine, j: Job) {
    match j
    case TimeoutAccept(m) => m in e.sessions && e.sessions[m].status.RequiresAcceptance?
    case AutoAccept(p) => false
    case TimeoutPlace(m) => m in e.sessions && e.sessions[m].status.Placing?
    case Complete(m) => m in e.sessions && e.sessions[m].status.Placing?
  }

  lemma NoLongerNeeded(e: Engine, j: Job)
    requires JobsSane(e, {j}) && !Needs(e, j)
    ensures JobsSane(e, {})
  {
    hide Pending;
    forall m | m in e.sessions ensures JobsFor(e.jobs, m, e.sessions[m].status, {}) {
      assert JobsFor(e.jobs, m, e.sessions[m].status, {j});
    }
  }

  lemma JobSane(e: Engine, now: int, zoneOk: bool)
    requires EngineSane(e) && e.jobs != []
    ensures EngineSane(AfterJob(e, now, zoneOk))
  {
    hide EarlySane, LateSane, Pending, JobsFor;
    var e1, j, e' := e.(jobs := e.jobs[1..]), e.jobs[0].1, AfterJob(e, now, zoneOk);
    PoppedJobs(e);
    HistoryDiffers(e, e1);
    match j
    case TimeoutAccept(m) =>
      TimeoutIs(e1, m, RequiresAcceptance);
      JobsKept(e1, e', {j});
      NoLongerNeeded(e', j);
    case AutoAccept(p) =>
      NoLongerNeeded(e1, j);
      AnswerCore(e1, p, true, now);
      AnswerJobs(e1, p, true, now);
    case TimeoutPlace(m) =>
      TimeoutIs(e1, m, Placing);
      JobsKept(e1, e', {j});
      NoLongerNeeded(e', j);
    case Complete(m) =>
      CompleteIs(e1, m, true, zoneOk);
      JobsKept(e1, e', {j});
      NoLongerNeeded(e', j);
  }
}
