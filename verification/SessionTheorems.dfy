/** What holds in every state of every run of the session engine. */
module SessionTheorems {
  import opened Tickets
  import opened Ordered
  import opened TimedQueue
  import opened Registries
  import opened SessionProtocol
  import opened SessionSafety
  import opened SessionLife
  import opened SessionRuns

  // ---------- Every step, every run ----------

  lemma RegisterStaysSane(e: Engine, id: TicketId, info: TicketInfo, toParty: bool)
    requires EngineSane(e) && id !in e.info
    ensures EngineSane(AfterRegister(e, id, info, toParty))
  {
    hide LateSane, TicketsSane, OwnersSane, RegistriesSane, FlightSane, JobsFor;
    RegisteredSane(e, id, info, toParty);
    RegisteredMoves(e, id, info, toParty);
  }

  lemma EnqueueStaysSane(e: Engine, id: TicketId, ok: bool)
    requires EngineSane(e) && id in e.route && id in e.info && id in e.status
    requires e.status[id].Unset? || e.status[id].Cancelled?
    requires ok ==> e.info[id].players != {}
    ensures EngineSane(AfterQueue(e, id, e.route[id], ok))
  {
    hide LateSane, TicketsSane, OwnersSane, RegistriesSane, FlightSane, JobsFor;
    QueuedSane(e, id, ok);
    QueuedMoves(e, id, ok);
  }

  lemma StepStaysSane(e: Engine, step: Step)
    requires EngineSane(e) && Enabled(e, step)
    ensures EngineSane(Apply(e, step))
  {
    hide EarlySane, LateSane, JobsFor;
    match step
    case Register(id, info, toParty) => RegisterStaysSane(e, id, info, toParty);
    case Enqueue(id, toParty, ok) => EnqueueStaysSane(e, id, ok);
    case Stop(p, toParty, dodge, now) =>
      StopIs(e, p, toParty, dodge, now);
      StopJobs(e, p, toParty, dodge, now);
    case Match(list, fromParty) => MatchedSane(e, list, fromParty);
    case Create(list, now, worldFound) =>
      CreateIs(e, list, now, worldFound);
      CreateJobs(e, list, now, worldFound);
    case Reply(p, accept, now) =>
      AnswerCore(e, p, accept, now);
      AnswerJobs(e, p, accept, now);
    case Fail(m) => FailIs(e, m);
    case Placed(m, success, zoneOk) => CompleteIs(e, m, success, zoneOk);
    case RunJob(now, zoneOk) => JobSane(e, now, zoneOk);
  }

  ghost predicate IsRun(es: seq<Engine>, steps: seq<Step>) {
    && |es| == |steps| + 1 && Initial(es[0])
    && forall i :: 0 <= i < |steps| ==> Enabled(es[i], steps[i]) && es[i + 1] == Apply(es[i], steps[i])
  }

  lemma StartsSane(e: Engine)
    requires Initial(e)
    ensures EngineSane(e)
  {
  }

  lemma RunStep(es: seq<Engine>, steps: seq<Step>, i: nat)
    requires IsRun(es, steps) && i < |steps|
    ensures |es| == |steps| + 1 && Enabled(es[i], steps[i]) && es[i + 1] == Apply(es[i], steps[i])
  {
  }

  /** Every state of every run is sane. */
  lemma {:induction false} RunStaysSane(es: seq<Engine>, steps: seq<Step>, k: nat)
    requires IsRun(es, steps) && k < |es|
    ensures EngineSane(es[k])
  {
    if k == 0 {
      StartsSane(es[0]);
    } else {
      RunLength(es, steps);
      hide EngineSane, Initial, Apply, Enabled, IsRun;
      RunStaysSane(es, steps, k - 1);
      RunStep(es, steps, k - 1);
      StepStaysSane(es[k - 1], steps[k - 1]);
    }
  }

  lemma RunLength(es: seq<Engine>, steps: seq<Step>)
    requires IsRun(es, steps)
    ensures |es| == |steps| + 1
  {
  }

  // ---------- Sessions and acceptance ----------

  /** In every reachable state a live session is REQUIRES_ACCEPTANCE or PLACING, every one of its tickets has
      that same status, and the player index names it for exactly its tickets' players. */
  lemma LiveSessionsAgree(es: seq<Engine>, steps: seq<Step>, k: nat, m: TicketId)
    requires IsRun(es, steps) && k < |es| && m in es[k].sessions
    ensures var e, s := es[k], es[k].sessions[m];
            && (s.status.RequiresAcceptance? || s.status.Placing?)
            && (forall id :: id in s.tickets ==> id in e.status && e.status[id] == s.status)
            && (forall p :: p in PlayersOf(e.info, s.tickets) <==> p in e.index && e.index[p] == m)
  {
    RunStaysSane(es, steps, k);
    LiveTickets(es[k], m);
    SessionRoster(es[k], m);
  }

  /** So no player is in two live sessions. */
  lemma PlayersInOneSession(es: seq<Engine>, steps: seq<Step>, k: nat, a: TicketId, b: TicketId)
    requires IsRun(es, steps) && k < |es| && a in es[k].sessions && b in es[k].sessions && a != b
    ensures PlayersOf(es[k].info, es[k].sessions[a].tickets) !! PlayersOf(es[k].info, es[k].sessions[b].tickets)
  {
    hide PlayersOf;
    RunStaysSane(es, steps, k);
    var e := es[k];
    assert SessionSane(e.info, e.status, a, e.sessions[a]) && SessionSane(e.info, e.status, b, e.sessions[b]);
    InverseSeparates(e.index, Rosters(e.sessions), a, b);
  }

  lemma SessionRoster(e: Engine, m: TicketId)
    requires SessionsSane(e) && IndexSane(e) && m in e.sessions
    ensures forall p :: p in PlayersOf(e.info, e.sessions[m].tickets) <==> p in e.index && e.index[p] == m
  {
    hide PlayersOf;
    assert SessionSane(e.info, e.status, m, e.sessions[m]);
    assert Rosters(e.sessions)[m] == e.sessions[m].answers.Keys;
    forall p | p in e.index && e.index[p] == m ensures p in e.sessions[m].answers {
      assert m in Rosters(e.sessions) && p in Rosters(e.sessions)[m];
    }
  }

  /** A session is PLACING, or was completed, only with one answer of every one of its players, accepting;
      while it awaits acceptance no recorded answer is a rejection and somebody has not accepted. */
  lemma EveryoneAcceptedOnce(es: seq<Engine>, steps: seq<Step>, k: nat, m: TicketId, p: PlayerKey)
    requires IsRun(es, steps) && k < |es|
    ensures var e := es[k];
            m in e.sessions && e.sessions[m].status.Placing? && p in e.sessions[m].answers ==>
              e.log[Entry(m, p, true)] == 1 && e.log[Entry(m, p, false)] == 0
    ensures var e := es[k];
            m in e.done && p in e.done[m].answers ==>
              e.log[Entry(m, p, true)] == 1 && e.log[Entry(m, p, false)] == 0
    ensures var e := es[k];
            m in e.sessions && e.sessions[m].status.RequiresAcceptance? ==>
              && !AllAccepted(e.sessions[m])
              && (p in e.sessions[m].answers ==> e.log[Entry(m, p, false)] == 0)
  {
    RunStaysSane(es, steps, k);
    var e := es[k];
    if m in e.sessions && p in e.sessions[m].answers {
      assert Answered(e.log, m, p, e.sessions[m].answers[p]);
      assert SessionSane(e.info, e.status, m, e.sessions[m]);
    }
    if m in e.sessions {
      assert SessionSane(e.info, e.status, m, e.sessions[m]);
    }
    if m in e.done && p in e.done[m].answers {
      assert ClosedWell(e.status, e.log, m, e.done[m]);
      assert Answered(e.log, m, p, Answer(true, true));
    }
  }

  /** A ticket that is COMPLETED belongs to a session that completed. */
  lemma CompletedThroughSession(es: seq<Engine>, steps: seq<Step>, k: nat, id: TicketId)
    requires IsRun(es, steps) && k < |es| && id in es[k].status && es[k].status[id].Completed?
    ensures exists m :: m in es[k].done && id in es[k].done[m].tickets && AllAccepted(es[k].done[m])
  {
    RunStaysSane(es, steps, k);
    assert SomeSession(es[k].done, id);
    var m :| m in es[k].done && id in es[k].done[m].tickets;
    assert ClosedWell(es[k].status, es[k].log, m, es[k].done[m]);
  }

  // ---------- Ownership ----------

  /** Who holds a ticket follows from its status: the registry of the manager it was given to while it is new,
      QUEUED or SEARCHING, one match on its way while SEARCHING, one session while REQUIRES_ACCEPTANCE or
      PLACING, and nobody once its status is terminal. The one exception is a misrouted ticket, one handed
      back to the other manager: its registry holds it beside its session, and after that. */
  lemma OneOwner(es: seq<Engine>, steps: seq<Step>, k: nat, id: TicketId)
    requires IsRun(es, steps) && k < |es| && id in es[k].info
    ensures var e := es[k];
            && id in e.status && id in e.route
            && (id in e.party ==> e.route[id]) && (id in e.solo ==> !e.route[id])
            && (!Misrouted(e, id) ==> (Registered(e, id) <==> Stage(e.status[id]) <= 2))
            && (Live(e.status[id]) || e.status[id].Completed? || e.status[id].TimedOut? ==>
                  (Registered(e, id) <==> Misrouted(e, id)))
            && (SomeFlight(e.flight, id) <==> e.status[id].Searching?)
            && (SomeSession(e.sessions, id) <==> Live(e.status[id]))
            && SessionsApart(e.sessions) && FlightsApart(e.flight)
  {
    hide IsParty;
    RunStaysSane(es, steps, k);
    var e := es[k];
    FlightOwns(e, id);
    SessionOwns(e, id);
  }

  lemma FlightOwns(e: Engine, id: TicketId)
    requires FlightSane(e) && id in e.status
    ensures SomeFlight(e.flight, id) <==> e.status[id].Searching?
  {
    hide NoDuplicates;
    if SomeFlight(e.flight, id) {
      var l :| l in e.flight && id in l;
      assert FlightGood(e.status, l);
    }
  }

  lemma SessionOwns(e: Engine, id: TicketId)
    requires SessionsSane(e) && id in e.status
    ensures SomeSession(e.sessions, id) <==> Live(e.status[id])
  {
    if SomeSession(e.sessions, id) {
      var m :| m in e.sessions && id in e.sessions[m].tickets;
      LiveTickets(e, m);
    }
  }

  /** Tickets matched together share no player. */
  lemma MatchedTogetherApart(es: seq<Engine>, steps: seq<Step>, k: nat, list: seq<TicketId>)
    requires IsRun(es, steps) && k < |es| && list in es[k].flight
    ensures NoDuplicates(list) && Apart(es[k].info, ToSet(list))
  {
    RunStaysSane(es, steps, k);
    FlightApart(es[k], list);
  }

  // ---------- The end ----------

  /** Ticket id keeps its status or moves along the transition table. */
  ghost predicate Follows(e: Engine, e': Engine, id: TicketId) {
    id in e.status ==>
      id in e'.status && (e'.status[id] == e.status[id] || CanChangeStatus(e.status[id], e'.status[id]))
  }

  /** No step takes a ticket anywhere but along the table, not even a forced or a rolled back change. */
  lemma StepFollowsTable(e: Engine, step: Step, id: TicketId)
    requires EngineSane(e) && Enabled(e, step)
    ensures Follows(e, Apply(e, step), id)
  {
    hide EarlySane, LateSane, JobsFor, AfterCreate, AfterStop, AfterAnswer, AfterFail, AfterComplete, AfterJob;
    match step
    case Register(x, info, toParty) => KnownTicket(e, id);
    case Enqueue(x, toParty, ok) =>
    case Stop(p, toParty, dodge, now) => StopFollows(e, p, toParty, dodge, now, id);
    case Match(list, fromParty) =>
    case Create(list, now, worldFound) => CreateFollows(e, list, now, worldFound, id);
    case Reply(p, accept, now) => AnswerFollows(e, p, accept, now, id);
    case Fail(m) =>
      FailIs(e, m);
      DropFollows(e, m, Failed, id);
    case Placed(m, success, zoneOk) =>
      CompleteIs(e, m, success, zoneOk);
      DropFollows(e, m, Failed, id);
      DropFollows(e, m, Completed, id);
    case RunJob(now, zoneOk) => JobFollows(e, now, zoneOk, id);
  }

  lemma KnownTicket(e: Engine, id: TicketId)
    requires EarlySane(e)
    ensures id in e.status ==> id in e.info
  {
  }

  lemma StopFollows(e: Engine, p: PlayerKey, toParty: bool, dodge: bool, now: int, id: TicketId)
    requires Core(e)
    ensures Follows(e, AfterStop(e, p, toParty, dodge, now), id)
  {
    hide EarlySane, LateSane, AfterStop, AfterAnswer, Holders;
    StopIs(e, p, toParty, dodge, now);
    AnswerFollows(e, p, false, now, id);
    if Holders(e, toParty, p) != {} {
      HolderFacts(e, toParty, p, Pick(Holders(e, toParty, p)));
    }
  }

  lemma CreateFollows(e: Engine, list: seq<TicketId>, now: int, worldFound: bool, id: TicketId)
    requires Core(e) && list in e.flight
    ensures Follows(e, AfterCreate(e.(flight := e.flight - {list}), list, now, worldFound), id)
  {
    hide EarlySane, LateSane;
    CreateIs(e, list, now, worldFound);
    SearchingList(e, list);
  }

  lemma SearchingList(e: Engine, list: seq<TicketId>)
    requires EarlySane(e) && list in e.flight
    ensures forall id :: id in list ==> id in e.status && e.status[id].Searching?
  {
    FlightList(e, list);
  }

  lemma DropFollows(e: Engine, m: TicketId, s: Status, id: TicketId)
    requires Core(e)
    ensures m in e.sessions && CanChangeStatus(e.sessions[m].status, s) ==> Follows(e, Dropped(e, m, s), id)
    ensures m in e.sessions ==> Live(e.sessions[m].status)
  {
    if m in e.sessions {
      LiveTickets(e, m);
    }
  }

  lemma AnswerFollows(e: Engine, p: PlayerKey, accept: bool, now: int, id: TicketId)
    requires Core(e)
    ensures Follows(e, AfterAnswer(e, p, accept, now), id)
  {
    hide EarlySane, IndexSane, LogSane, DoneSane, CompletedSane, SessionsSane;
    if Counts(e, p) {
      LiveTickets(e, e.index[p]);
      if accept {
        AcceptIs(e, p, now);
      } else {
        RejectIs(e, p, now);
      }
    }
  }

  lemma JobFollows(e: Engine, now: int, zoneOk: bool, id: TicketId)
    requires Core(e) && e.jobs != []
    ensures Follows(e, AfterJob(e, now, zoneOk), id)
  {
    hide EarlySane, LateSane, AfterAnswer, AfterTimeout, AfterComplete, Dropped;
    var e1 := e.(jobs := e.jobs[1..]);
    HistoryDiffers(e, e1);
    match e.jobs[0].1
    case TimeoutAccept(m) =>
      TimeoutIs(e1, m, RequiresAcceptance);
      DropFollows(e1, m, TimedOut, id);
    case AutoAccept(p) => AnswerFollows(e1, p, true, now, id);
    case TimeoutPlace(m) =>
      TimeoutIs(e1, m, Placing);
      DropFollows(e1, m, TimedOut, id);
    case Complete(m) =>
      CompleteIs(e1, m, true, zoneOk);
      DropFollows(e1, m, Failed, id);
      DropFollows(e1, m, Completed, id);
  }

  /** Once a ticket is terminal, no later accept, timeout, failure or completion changes it. */
  lemma {:induction false} TerminalIsFinal(es: seq<Engine>, steps: seq<Step>, i: nat, j: nat, id: TicketId)
    requires IsRun(es, steps) && i <= j < |es| && id in es[i].status && Terminal(es[i].status[id])
    ensures id in es[j].status && es[j].status[id] == es[i].status[id]
  {
    hide EngineSane, Apply, Enabled;
    if i < j {
      TerminalIsFinal(es, steps, i, j - 1, id);
      RunStaysSane(es, steps, j - 1);
      assert es[j] == Apply(es[j - 1], steps[j - 1]);
      StepFollowsTable(es[j - 1], steps[j - 1], id);
    }
  }

  // ---------- Left alone, the job queue ends every session ----------

  /** What a job can still bring about: an acceptance may start a placement with its two jobs. */
  ghost function Weight(jobs: Queue<Job>): nat {
    if jobs == [] then 0 else (if jobs[0].1.AutoAccept? then 3 else 1) + Weight(jobs[1..])
  }

  lemma {:induction false} WeightAppend(a: Queue<Job>, b: Queue<Job>)
    ensures Weight(a + b) == Weight(a) + Weight(b)
  {
    if a == [] {
      assert a + b == b;
    } else {
      WeightAppend(a[1..], b);
      assert (a + b)[1..] == a[1..] + b;
    }
  }

  lemma {:induction false} WeightInsert(q: Queue<Job>, due: int, x: Job)
    ensures Weight(Insert(q, due, x)) == Weight(q) + (if x.AutoAccept? then 3 else 1)
  {
    if q == [] || q[|q| - 1].0 <= due {
      WeightAppend(q, [(due, x)]);
    } else {
      var front, last := q[..|q| - 1], q[|q| - 1];
      WeightInsert(front, due, x);
      WeightAppend(Insert(front, due, x), [last]);
      WeightAppend(front, [last]);
      assert q == front + [last];
    }
  }

  lemma AnswerWeight(e: Engine, p: PlayerKey, now: int)
    ensures Weight(AfterAnswer(e, p, true, now).jobs) <= Weight(e.jobs) + 2
  {
    hide Weight, Insert;
    if Counts(e, p) {
      var m := e.index[p];
      WeightInsert(e.jobs, now + PLACE_TIMEOUT_MSEC, TimeoutPlace(m));
      WeightInsert(Insert(e.jobs, now + PLACE_TIMEOUT_MSEC, TimeoutPlace(m)), now + COMPLETION_DELAY_MSEC, Complete(m));
    }
  }

  /** Every job run, whenever it runs and whatever it finds, brings the queue closer to empty. */
  lemma JobShrinksWeight(e: Engine, now: int, zoneOk: bool)
    requires e.jobs != []
    ensures Weight(AfterJob(e, now, zoneOk).jobs) < Weight(e.jobs)
  {
    hide AfterAnswer;
    var e1 := e.(jobs := e.jobs[1..]);
    if e.jobs[0].1.AutoAccept? {
      AnswerWeight(e1, e.jobs[0].1.player, now);
    }
  }

  /** What the zone manager answers if the next job is a completion. */
  predicate HeadOk(jobs: Queue<Job>, zoneOk: TicketId -> bool) {
    jobs != [] && jobs[0].1.Complete? && zoneOk(jobs[0].1.session)
  }

  /** The engine after its jobs have run, one after the other at their due times, until none is left;
      zoneOk says which matches get their zone. */
  ghost function Settled(e: Engine, zoneOk: TicketId -> bool): Engine
    decreases Weight(e.jobs)
  {
    if e.jobs == [] then e
    else
      var ok := HeadOk(e.jobs, zoneOk);
      JobShrinksWeight(e, e.jobs[0].0, ok);
      Settled(AfterJob(e, e.jobs[0].0, ok), zoneOk)
  }

  lemma SettledStep(e: Engine, zoneOk: TicketId -> bool)
    requires e.jobs != []
    ensures Settled(e, zoneOk) == Settled(AfterJob(e, e.jobs[0].0, HeadOk(e.jobs, zoneOk)), zoneOk)
  {
  }

  lemma SettledDone(e: Engine, zoneOk: TicketId -> bool)
    requires e.jobs == []
    ensures Settled(e, zoneOk) == e
  {
  }

  lemma SessionHasJob(e: Engine, m: TicketId)
    requires SessionsSane(e) && JobsSane(e, {}) && m in e.sessions
    ensures e.jobs != []
  {
    LiveTickets(e, m);
    assert JobsFor(e.jobs, m, e.sessions[m].status, {});
  }

  lemma NothingIndexed(index: Index)
    requires Inverse(index, map[])
    ensures index == map[]
  {
    InverseIsUnique(index, map[], map[]);
  }

  lemma NoJobsNoSessions(e: Engine)
    requires EngineSane(e) && e.jobs == []
    ensures e.sessions == map[] && e.index == map[]
    ensures forall id :: id in e.status ==> !Live(e.status[id])
  {
    hide EarlySane, JobsSane;
    forall m ensures m !in e.sessions {
      if m in e.sessions {
        SessionHasJob(e, m);
      }
    }
    assert Rosters(e.sessions) == map[];
    NothingIndexed(e.index);
  }

  /** From any reachable state and with no further input, running the job queue empties it, and leaves no
      live session and an empty player index, even if no zone can be registered. */
  lemma {:induction false} QueueEndsAllSessions(e: Engine, zoneOk: TicketId -> bool)
    requires EngineSane(e)
    ensures var e' := Settled(e, zoneOk);
            && e'.jobs == [] && e'.sessions == map[] && e'.index == map[]
            && forall id :: id in e'.status ==> !Live(e'.status[id])
    decreases Weight(e.jobs)
  {
    if e.jobs == [] {
      NoJobsNoSessions(e);
    } else {
      hide EngineSane, AfterJob;
      var ok := HeadOk(e.jobs, zoneOk);
      JobShrinksWeight(e, e.jobs[0].0, ok);
      JobSane(e, e.jobs[0].0, ok);
      QueueEndsAllSessions(AfterJob(e, e.jobs[0].0, ok), zoneOk);
    }
  }

  ghost predicate IsDrain(es: seq<Engine>, steps: seq<Step>) {
    && |es| == |steps| + 1
    && forall i :: 0 <= i < |steps| ==> steps[i].RunJob? && Enabled(es[i], steps[i]) && es[i + 1] == Apply(es[i], steps[i])
  }

  /** However late the jobs run, only so many of them can run before the queue is empty. */
  lemma {:induction false} DrainIsBounded(es: seq<Engine>, steps: seq<Step>)
    requires IsDrain(es, steps)
    ensures |steps| + Weight(es[|steps|].jobs) <= Weight(es[0].jobs)
  {
    if steps != [] {
      var n := |steps| - 1;
      var es', steps' := es[..n + 1], steps[..n];
      assert IsDrain(es', steps') by {
        forall i | 0 <= i < n
          ensures steps'[i].RunJob? && Enabled(es'[i], steps'[i]) && es'[i + 1] == Apply(es'[i], steps'[i])
        {
          assert steps'[i] == steps[i] && es'[i] == es[i] && es'[i + 1] == es[i + 1];
        }
      }
      DrainIsBounded(es', steps');
      assert es[n + 1] == Apply(es[n], steps[n]);
      JobShrinksWeight(es[n], steps[n].now, steps[n].zoneOk);
    }
  }
}
