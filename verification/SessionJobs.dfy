/** What the waiting jobs of the session engine say about the sessions they name, in every run. */
module SessionJobs {
  import opened Tickets
  import opened Ordered
  import opened TimedQueue
  import opened Registries
  import opened SessionProtocol
  import opened SessionSafety
  import opened SessionLife
  import opened SessionRuns
  import opened SessionTheorems

  // ---------- Jobs name sessions that are far enough ----------

  /** A placement's jobs are booked when a session is placed, and an acceptance timeout when it starts to ask. */
  ghost predicate JobNamed(status: map<TicketId, Status>, j: Job) {
    match j
    case TimeoutAccept(m) => m in status && Stage(status[m]) >= 3
    case AutoAccept(p) => true
    case TimeoutPlace(m) => m in status && Stage(status[m]) >= 4
    case Complete(m) => m in status && Stage(status[m]) >= 4
  }

  ghost predicate JobsNamed(e: Engine) {
    InOrder(e.jobs) && forall j :: Pending(e.jobs, j) ==> JobNamed(e.status, j)
  }

  /** Tickets only move on, and a new job names a session that is far enough. */
  lemma NamedKept(e: Engine, e': Engine)
    requires JobsNamed(e) && NewJobsNamed(e, e')
    requires forall id :: id in e.status ==> id in e'.status && Stage(e'.status[id]) >= Stage(e.status[id])
    ensures JobsNamed(e')
  {
    hide Pending, InOrder;
  }

  lemma StageFollows(e: Engine, e': Engine)
    requires forall id :: Follows(e, e', id)
    ensures forall id :: id in e.status ==> id in e'.status && Stage(e'.status[id]) >= Stage(e.status[id])
  {
    forall id | id in e.status ensures id in e'.status && Stage(e'.status[id]) >= Stage(e.status[id]) {
      assert Follows(e, e', id);
    }
  }

  lemma InsertInOrder(q: Queue<Job>, due: int, x: Job)
    requires InOrder(q)
    ensures InOrder(Insert(q, due, x))
    ensures forall j :: Pending(Insert(q, due, x), j) ==> j == x || Pending(q, j)
  {
    hide Pending, InOrder, Insert;
    InsertKeepsAll(q, due, x);
    forall j | Pending(Insert(q, due, x), j) ensures j == x || Pending(q, j) {
      InsertPending(q, due, x, j);
    }
  }

  lemma PlaceJobsNamed(e: Engine, m: TicketId, now: int, status: map<TicketId, Status>)
    requires InOrder(e.jobs) && m in status && Stage(status[m]) >= 4
    ensures InOrder(PlaceJobs(e.jobs, m, now))
    ensures forall j :: Pending(PlaceJobs(e.jobs, m, now), j) ==> Pending(e.jobs, j) || JobNamed(status, j)
  {
    hide Pending, Insert, InOrder;
    InsertInOrder(e.jobs, now + PLACE_TIMEOUT_MSEC, TimeoutPlace(m));
    InsertInOrder(Insert(e.jobs, now + PLACE_TIMEOUT_MSEC, TimeoutPlace(m)), now + COMPLETION_DELAY_MSEC, Complete(m));
  }

  lemma {:induction false} AutoAcceptsInOrder(q: Queue<Job>, now: int, players: seq<PlayerKey>)
    requires InOrder(q)
    ensures InOrder(AutoAccepts(q, now, players))
    ensures forall j :: Pending(AutoAccepts(q, now, players), j) ==> j.AutoAccept? || Pending(q, j)
  {
    hide Pending, InOrder, Insert;
    if players != [] {
      var front, k := players[..|players| - 1], |players|;
      AutoAcceptsInOrder(q, now, front);
      InsertInOrder(AutoAccepts(q, now, front), now + AUTO_ACCEPT_DELAY_MSEC * k, AutoAccept(players[k - 1]));
    }
  }

  lemma AcceptJobsNamed(e: Engine, list: seq<TicketId>, now: int, status: map<TicketId, Status>)
    requires InOrder(e.jobs) && list != [] && list[0] in status && Stage(status[list[0]]) >= 3
    ensures InOrder(AcceptJobs(e, list, now))
    ensures forall j :: Pending(AcceptJobs(e, list, now), j) ==> Pending(e.jobs, j) || JobNamed(status, j)
  {
    hide Pending, InOrder, Insert, Roster;
    InsertInOrder(e.jobs, now + ACCEPT_TIMEOUT_MSEC, TimeoutAccept(list[0]));
    AutoAcceptsInOrder(Insert(e.jobs, now + ACCEPT_TIMEOUT_MSEC, TimeoutAccept(list[0])), now, Roster(e.info, list));
  }

  ghost predicate NewJobsNamed(e: Engine, e': Engine) {
    InOrder(e'.jobs) && forall j :: Pending(e'.jobs, j) ==> Pending(e.jobs, j) || JobNamed(e'.status, j)
  }

  /** Whether this answer places its session. */
  ghost predicate Places(e: Engine, p: PlayerKey, accept: bool) {
    accept && Counts(e, p) && AllAccepted(WithAnswer(e.sessions[e.index[p]], p))
  }

  /** An acceptance touches the player's own session only; a rejection ends it. */
  lemma AnswerMeans(e: Engine, p: PlayerKey, accept: bool, now: int)
    requires Core(e)
    ensures var e' := AfterAnswer(e, p, accept, now);
            && e'.jobs == (if Places(e, p, accept) then PlaceJobs(e.jobs, e.index[p], now) else e.jobs)
            && (!Counts(e, p) ==> e' == e)
            && (Counts(e, p) && accept ==> e'.sessions == e.sessions[e.index[p] := Accepted(e.sessions[e.index[p]], p)])
            && (Counts(e, p) && !accept ==> e'.sessions == e.sessions - {e.index[p]})
            && (Places(e, p, accept) ==> e.index[p] in e'.status && e'.status[e.index[p]].Placing?)
  {
    hide EarlySane, IndexSane, LogSane, DoneSane, CompletedSane, SessionsSane, AfterAnswer, PlaceJobs;
    if Counts(e, p) {
      LiveTickets(e, e.index[p]);
      if accept {
        AcceptIs(e, p, now);
      } else {
        RejectIs(e, p, now);
      }
    } else {
      NothingCounts(e, p, accept, now);
    }
  }

  lemma NothingCounts(e: Engine, p: PlayerKey, accept: bool, now: int)
    requires !Counts(e, p)
    ensures AfterAnswer(e, p, accept, now) == e
  {
  }

  lemma AnswerNewJobs(e: Engine, p: PlayerKey, accept: bool, now: int)
    requires Core(e) && InOrder(e.jobs)
    ensures NewJobsNamed(e, AfterAnswer(e, p, accept, now))
  {
    hide EarlySane, LateSane, Pending, InOrder, JobNamed, PlaceJobs, AfterAnswer;
    AnswerMeans(e, p, accept, now);
    if Places(e, p, accept) {
      PlaceJobsNamed(e, e.index[p], now, AfterAnswer(e, p, accept, now).status);
    }
  }

  lemma CreateNewJobs(e: Engine, list: seq<TicketId>, now: int, worldFound: bool)
    requires Core(e) && InOrder(e.jobs) && list in e.flight
    ensures NewJobsNamed(e, AfterCreate(e.(flight := e.flight - {list}), list, now, worldFound))
  {
    hide EarlySane, LateSane, Pending, InOrder, JobNamed, AcceptJobs, AfterCreate;
    CreateIs(e, list, now, worldFound);
    SearchingList(e, list);
    if worldFound && PlayersOf(e.info, list) !! e.index.Keys {
      AcceptJobsNamed(e, list, now, Created(e, list, now).status);
    }
  }

  lemma PoppedPending(q: Queue<Job>, j: Job)
    requires q != [] && Pending(q[1..], j)
    ensures Pending(q, j)
  {
    var i :| 0 <= i < |q[1..]| && q[1..][i].1 == j;
    assert q[i + 1].1 == j;
  }

  lemma PoppedNewJobs(e: Engine, e1: Engine, e': Engine)
    requires InOrder(e.jobs) && e.jobs != [] && e1 == e.(jobs := e.jobs[1..])
    ensures InOrder(e1.jobs) && (NewJobsNamed(e1, e') ==> NewJobsNamed(e, e'))
  {
    hide Pending, JobNamed;
    forall j | Pending(e1.jobs, j) ensures Pending(e.jobs, j) {
      PoppedPending(e.jobs, j);
    }
  }

  lemma JobNewJobs(e: Engine, now: int, zoneOk: bool)
    requires Core(e) && InOrder(e.jobs) && e.jobs != []
    ensures NewJobsNamed(e, AfterJob(e, now, zoneOk))
  {
    hide EarlySane, LateSane, Pending, InOrder, JobNamed, AfterAnswer, AfterTimeout, AfterComplete, Dropped;
    var e1 := e.(jobs := e.jobs[1..]);
    HistoryDiffers(e, e1);
    PoppedNewJobs(e, e1, AfterJob(e, now, zoneOk));
    match e.jobs[0].1
    case TimeoutAccept(m) =>
      TimeoutIs(e1, m, RequiresAcceptance);
      DroppedJobs(e1, m, TimedOut);
    case AutoAccept(p) => AnswerNewJobs(e1, p, true, now);
    case TimeoutPlace(m) =>
      TimeoutIs(e1, m, Placing);
      DroppedJobs(e1, m, TimedOut);
    case Complete(m) =>
      CompleteIs(e1, m, true, zoneOk);
      DroppedJobs(e1, m, Failed);
      DroppedJobs(e1, m, Completed);
  }

  lemma DroppedJobs(e: Engine, m: TicketId, s: Status)
    ensures m in e.sessions ==> Dropped(e, m, s).jobs == e.jobs
  {
  }

  lemma StepNewJobs(e: Engine, step: Step)
    requires Core(e) && InOrder(e.jobs) && Enabled(e, step)
    ensures NewJobsNamed(e, Apply(e, step))
  {
    hide EarlySane, LateSane, Pending, InOrder, JobNamed, AfterAnswer, AfterStop, AfterCreate,
         AfterJob, AfterComplete, AfterFail, Dropped;
    match step
    case Stop(p, toParty, dodge, now) =>
      StopIs(e, p, toParty, dodge, now);
      AnswerNewJobs(e, p, false, now);
    case Create(list, now, worldFound) => CreateNewJobs(e, list, now, worldFound);
    case Reply(p, accept, now) => AnswerNewJobs(e, p, accept, now);
    case Fail(m) =>
      FailIs(e, m);
      DroppedJobs(e, m, Failed);
    case Placed(m, success, zoneOk) =>
      CompleteIs(e, m, success, zoneOk);
      DroppedJobs(e, m, Failed);
      DroppedJobs(e, m, Completed);
    case RunJob(now, zoneOk) => JobNewJobs(e, now, zoneOk);
    case _ =>
  }

  lemma StepStaysNamed(e: Engine, step: Step)
    requires EngineSane(e) && JobsNamed(e) && Enabled(e, step)
    ensures JobsNamed(Apply(e, step))
  {
    hide Core, Pending, InOrder, JobNamed, Apply, Enabled, NewJobsNamed, Follows;
    SaneIsCore(e);
    StepNewJobs(e, step);
    forall id ensures Follows(e, Apply(e, step), id) {
      StepFollowsTable(e, step, id);
    }
    StageFollows(e, Apply(e, step));
    NamedKept(e, Apply(e, step));
  }

  lemma SaneIsCore(e: Engine)
    requires EngineSane(e)
    ensures Core(e)
  {
  }

  /** In every state of every run the job queue is in order of its due times, and its jobs name only sessions
      that have come far enough. */
  lemma {:induction false} RunStaysNamed(es: seq<Engine>, steps: seq<Step>, k: nat)
    requires IsRun(es, steps) && k < |es|
    ensures JobsNamed(es[k])
  {
    hide EngineSane, Apply, Enabled;
    if k > 0 {
      RunStaysNamed(es, steps, k - 1);
      RunStaysSane(es, steps, k - 1);
      assert es[k] == Apply(es[k - 1], steps[k - 1]);
      StepStaysNamed(es[k - 1], steps[k - 1]);
    }
  }
}
