/** Tickets that were registered with one manager and are handed back to the other: how long their registry
    holds them, and what a stop request of their players does. */
module Misrouting {
  import opened Tickets
  import opened Ordered
  import opened TimedQueue
  import opened Registries
  import opened SessionProtocol
  import opened SessionSafety
  import opened SessionLife
  import opened SessionRuns
  import opened SessionTheorems

  // ---------- Ownership ----------

  /** Whether a match becomes a session or fails, its tickets leave their registry if and only if that is the
      registry of the manager they are handed back to. */
  lemma OwnershipPassesIfRouted(e: Engine, list: seq<TicketId>, now: int, worldFound: bool, id: TicketId)
    requires Core(e) && list in e.flight && id in list
    ensures Registered(AfterCreate(e.(flight := e.flight - {list}), list, now, worldFound), id) <==> Misrouted(e, id)
  {
    hide LateSane, RegistriesSane, IsParty, AfterCreate;
    CreateIs(e, list, now, worldFound);
    FlightList(e, list);
  }

  /** A ticket past SEARCHING that its registry still holds. */
  ghost predicate Stuck(e: Engine, id: TicketId) {
    id in e.info && id in e.status && id in e.route && Registered(e, id) && Stage(e.status[id]) >= 3
  }

  /** The ticket's registration and description are what they were. */
  ghost predicate HeldOn(e: Engine, e': Engine, id: TicketId) {
    && id in e.info && id in e'.info && e'.info[id] == e.info[id]
    && id in e.route && id in e'.route && e'.route[id] == e.route[id]
    && (id in e.party ==> id in e'.party) && (id in e.solo ==> id in e'.solo)
  }

  lemma StuckIsMisrouted(e: Engine, id: TicketId)
    requires EarlySane(e) && Stuck(e, id)
    ensures Misrouted(e, id) && (id in e.party ==> e.route[id]) && (id in e.solo ==> !e.route[id])
    ensures !e.status[id].Cancelled?
  {
    hide TicketsSane, RegistriesSane, FlightSane, IsParty;
  }

  lemma CreateHoldsOn(e: Engine, list: seq<TicketId>, now: int, worldFound: bool, id: TicketId)
    requires Core(e) && list in e.flight && Stuck(e, id)
    ensures HeldOn(e, AfterCreate(e.(flight := e.flight - {list}), list, now, worldFound), id)
  {
    hide EarlySane, LateSane, IsParty, AfterCreate, AcceptJobs, Claimed, Blank;
    StuckIsMisrouted(e, id);
    CreateIs(e, list, now, worldFound);
  }

  lemma StopHoldsOn(e: Engine, p: PlayerKey, toParty: bool, dodge: bool, now: int, id: TicketId)
    requires Core(e) && Stuck(e, id)
    ensures HeldOn(e, AfterStop(e, p, toParty, dodge, now), id)
  {
    hide EarlySane, LateSane, Holders, AfterStop, AfterAnswer;
    StopIs(e, p, toParty, dodge, now);
    AnswerHoldsOn(e, p, false, now, id);
    if Holders(e, toParty, p) != {} {
      HolderFacts(e, toParty, p, Pick(Holders(e, toParty, p)));
    }
  }

  lemma AnswerHoldsOn(e: Engine, p: PlayerKey, accept: bool, now: int, id: TicketId)
    requires Stuck(e, id)
    ensures HeldOn(e, AfterAnswer(e, p, accept, now), id)
  {
  }

  lemma JobHoldsOn(e: Engine, now: int, zoneOk: bool, id: TicketId)
    requires e.jobs != [] && Stuck(e, id)
    ensures HeldOn(e, AfterJob(e, now, zoneOk), id)
  {
    hide AfterAnswer;
    var e1 := e.(jobs := e.jobs[1..]);
    if e.jobs[0].1.AutoAccept? {
      AnswerHoldsOn(e1, e.jobs[0].1.player, true, now, id);
    }
  }

  lemma QueueHoldsOn(e: Engine, x: TicketId, ok: bool, id: TicketId)
    requires EarlySane(e) && Stuck(e, id) && x in e.route && Enabled(e, Enqueue(x, e.route[x], ok))
    ensures HeldOn(e, AfterQueue(e, x, e.route[x], ok), id)
  {
    StuckIsMisrouted(e, id);
  }

  lemma RegisterHoldsOn(e: Engine, x: TicketId, info: TicketInfo, toParty: bool, id: TicketId)
    requires Stuck(e, id) && x !in e.info
    ensures HeldOn(e, AfterRegister(e, x, info, toParty), id)
  {
    hide Taken;
  }

  lemma StepHolds(e: Engine, step: Step, id: TicketId)
    requires Core(e) && Enabled(e, step) && Stuck(e, id)
    ensures HeldOn(e, Apply(e, step), id)
  {
    hide EarlySane, LateSane, AfterCreate, AfterStop, AfterAnswer, AfterJob, AfterQueue, AfterRegister;
    match step
    case Register(x, info, toParty) => RegisterHoldsOn(e, x, info, toParty, id);
    case Enqueue(x, toParty, ok) => QueueHoldsOn(e, x, ok, id);
    case Stop(p, toParty, dodge, now) => StopHoldsOn(e, p, toParty, dodge, now, id);
    case Create(list, now, worldFound) => CreateHoldsOn(e, list, now, worldFound, id);
    case Reply(p, accept, now) => AnswerHoldsOn(e, p, accept, now, id);
    case RunJob(now, zoneOk) => JobHoldsOn(e, now, zoneOk, id);
    case _ =>
  }

  /** No step takes a stuck ticket out of its registry. */
  lemma StepHoldsOn(e: Engine, step: Step, id: TicketId)
    requires EngineSane(e) && Enabled(e, step) && Stuck(e, id)
    ensures HeldOn(e, Apply(e, step), id) && Stuck(Apply(e, step), id)
  {
    hide EngineSane, Core, EarlySane, Apply, Enabled, IsParty;
    EngineEarly(e);
    StepFollowsTable(e, step, id);
    StepHolds(e, step, id);
  }

  /** A ticket that its registry still holds when it is past SEARCHING is held there for ever, and none of its
      players can be registered with that manager again. */
  lemma {:induction false} StuckForEver(es: seq<Engine>, steps: seq<Step>, i: nat, j: nat, id: TicketId)
    requires IsRun(es, steps) && i <= j < |es| && Stuck(es[i], id)
    ensures Stuck(es[j], id) && HeldOn(es[i], es[j], id)
    ensures forall players: set<PlayerKey> ::
              es[i].info[id].players * players != {} ==> Taken(es[j], es[i].route[id], players)
  {
    hide EngineSane, Apply, Enabled;
    if i < j {
      StuckForEver(es, steps, i, j - 1, id);
      RunStaysSane(es, steps, j - 1);
      assert es[j] == Apply(es[j - 1], steps[j - 1]);
      StepHoldsOn(es[j - 1], steps[j - 1], id);
    }
    RunStaysSane(es, steps, j);
    StuckTakes(es[j], id);
  }

  lemma StuckTakes(e: Engine, id: TicketId)
    requires EngineSane(e) && Stuck(e, id)
    ensures forall players: set<PlayerKey> :: e.info[id].players * players != {} ==> Taken(e, e.route[id], players)
  {
    EngineEarly(e);
    StuckIsMisrouted(e, id);
    assert id in Registry(e, e.route[id]);
  }

  lemma EngineEarly(e: Engine)
    requires EngineSane(e)
    ensures EarlySane(e) && Core(e)
  {
  }

  // ---------- A stop request during acceptance ----------

  /** Some ticket of the session that lists the player was given to the solo manager but is handed back to the
      party manager. */
  ghost predicate SoloHeld(e: Engine, m: TicketId, p: PlayerKey)
    requires m in e.sessions
  {
    exists id :: id in e.sessions[m].tickets && id in e.info && p in e.info[id].players
                 && Misrouted(e, id) && !e.route[id]
  }

  /** Such a ticket is the player's only registered one, and it is asking. */
  lemma SoloHeldIsHolder(e: Engine, m: TicketId, p: PlayerKey)
    requires Core(e) && m in e.sessions && e.sessions[m].status.RequiresAcceptance? && SoloHeld(e, m, p)
    ensures StopIsAnswer(e, p, false)
  {
    hide IsParty, FlightSane, IndexSane, LogSane, DoneSane, CompletedSane, SessionSane;
    LiveTickets(e, m);
    var id :| id in e.sessions[m].tickets && id in e.info && p in e.info[id].players
              && Misrouted(e, id) && !e.route[id];
    assert OwnedAs(e.status[id], Registered(e, id), Misrouted(e, id));
    assert id in Holders(e, false, p);
    var x := Pick(Holders(e, false, p));
    assert x in e.solo && id in e.solo && x in e.info && p in e.info[x].players;
  }

  /** And the other way round: if the player's registered ticket is asking, it is in the session that asks him. */
  lemma HolderIsSoloHeld(e: Engine, m: TicketId, p: PlayerKey)
    requires Core(e) && m in e.sessions && p in e.sessions[m].answers && StopIsAnswer(e, p, false)
    ensures SoloHeld(e, m, p)
  {
    var id := Pick(Holders(e, false, p));
    AskingIsInSession(e, id, p, m);
    HolderFacts(e, false, p, id);
    hide IsParty, TicketsSane, RegistriesSane, FlightSane, LateSane;
    assert OwnedAs(e.status[id], Registered(e, id), Misrouted(e, id));
  }

  lemma AskingIsInSession(e: Engine, id: TicketId, p: PlayerKey, m: TicketId)
    requires SessionsSane(e) && IndexSane(e) && m in e.sessions && p in e.sessions[m].answers
    requires id in e.status && Live(e.status[id]) && id in e.info && p in e.info[id].players
    ensures id in e.sessions[m].tickets
  {
    assert SomeSession(e.sessions, id);
    var x :| x in e.sessions && id in e.sessions[x].tickets;
    assert p in PlayersOf(e.info, e.sessions[x].tickets);
    hide SessionsSane, IndexSane, PlayersOf;
    SessionRoster(e, x);
    SessionRoster(e, m);
    AnswersArePlayers(e, m);
  }

  lemma AnswersArePlayers(e: Engine, m: TicketId)
    requires SessionsSane(e) && m in e.sessions
    ensures e.sessions[m].answers.Keys == PlayersOf(e.info, e.sessions[m].tickets)
  {
    hide PlayersOf;
    assert SessionSane(e.info, e.status, m, e.sessions[m]);
  }

  /** What a stop does to the session that asks its player, in a sane state. */
  lemma StopWhileAsked(e: Engine, p: PlayerKey, toParty: bool, dodge: bool, now: int, m: TicketId)
    requires Core(e) && m in e.sessions && e.sessions[m].status.RequiresAcceptance? && p in e.sessions[m].answers
    ensures var e' := AfterStop(e, p, toParty, dodge, now);
            if !toParty && SoloHeld(e, m, p) && !e.sessions[m].answers[p].responded
            then e' == Rejected(e, m, p, now + DODGE_PENALTY_MSEC)
            else && e'.sessions == e.sessions && e'.log == e.log
                 && forall id :: id in e.sessions[m].tickets ==>
                      id in e.status && id in e'.status && e'.status[id] == e.status[id]
  {
    hide EarlySane, SessionsSane, IndexSane, LogSane, DoneSane, CompletedSane, Holders,
         AfterCancel, AfterStop, AfterAnswer;
    LiveTickets(e, m);
    StopIs(e, p, toParty, dodge, now);
    if StopIsAnswer(e, p, toParty) {
      HolderIsSoloHeld(e, m, p);
      AskedCounts(e, m, p);
      if Counts(e, p) {
        RejectIs(e, p, now);
      } else {
        NotCounted(e, p, now);
      }
    } else {
      if !toParty && SoloHeld(e, m, p) {
        SoloHeldIsHolder(e, m, p);
      }
      if Holders(e, toParty, p) != {} {
        var id := Pick(Holders(e, toParty, p));
        HolderFacts(e, toParty, p, id);
        CancelLeavesSessions(e, id, toParty);
      }
    }
  }

  lemma AskedCounts(e: Engine, m: TicketId, p: PlayerKey)
    requires SessionsSane(e) && IndexSane(e) && m in e.sessions && p in e.sessions[m].answers
    requires e.sessions[m].status.RequiresAcceptance?
    ensures p in e.index && e.index[p] == m
    ensures Counts(e, p) <==> !e.sessions[m].answers[p].responded
  {
    assert SessionSane(e.info, e.status, m, e.sessions[m]);
    var rosters := Rosters(e.sessions);
    assert m in rosters && p in rosters[m];
  }

  lemma NotCounted(e: Engine, p: PlayerKey, now: int)
    requires !Counts(e, p)
    ensures AfterAnswer(e, p, false, now) == e
  {
  }

  /** The solo manager means to turn a stop request during acceptance into a rejection. It does so exactly if
      the player has not answered yet and one of the session's tickets that list him was given to the solo
      manager but is handed back to the party manager, which for the one player it lists means that it has a
      party key; then the session fails and he is punished. In every other case the stop leaves all sessions,
      all answers and the session's tickets as they are. */
  lemma StopRejectsExactlyIfMisrouted(es: seq<Engine>, steps: seq<Step>, k: nat, p: PlayerKey, toParty: bool,
                                      dodge: bool, now: int, m: TicketId)
    requires IsRun(es, steps) && k < |es|
    requires m in es[k].sessions && es[k].sessions[m].status.RequiresAcceptance? && p in es[k].sessions[m].answers
    ensures var e, e' := es[k], AfterStop(es[k], p, toParty, dodge, now);
            if !toParty && SoloHeld(e, m, p) && !e.sessions[m].answers[p].responded
            then e' == Rejected(e, m, p, now + DODGE_PENALTY_MSEC)
            else && e'.sessions == e.sessions && e'.log == e.log
                 && forall id :: id in e.sessions[m].tickets ==>
                      id in e.status && id in e'.status && e'.status[id] == e.status[id]
  {
    RunStaysSane(es, steps, k);
    EngineEarly(es[k]);
    StopWhileAsked(es[k], p, toParty, dodge, now, m);
  }

  /** So with well-routed requests it never does: whoever is asked is registered with no ticket of the session
      any more. */
  lemma StopLeavesSessions(es: seq<Engine>, steps: seq<Step>, k: nat, p: PlayerKey, toParty: bool,
                           dodge: bool, now: int, m: TicketId)
    requires IsRun(es, steps) && k < |es|
    requires m in es[k].sessions && es[k].sessions[m].status.RequiresAcceptance? && p in es[k].sessions[m].answers
    requires forall id :: id in es[k].sessions[m].tickets ==> !Misrouted(es[k], id)
    ensures forall id :: id in es[k].sessions[m].tickets ==> !Registered(es[k], id)
    ensures var e, e' := es[k], AfterStop(es[k], p, toParty, dodge, now);
            e'.sessions == e.sessions && e'.log == e.log
  {
    hide IsParty, AfterStop, IsRun;
    StopRejectsExactlyIfMisrouted(es, steps, k, p, toParty, dodge, now, m);
    RunStaysSane(es, steps, k);
    LiveTickets(es[k], m);
    forall id | id in es[k].sessions[m].tickets ensures !Registered(es[k], id) {
      assert OwnedAs(es[k].status[id], Registered(es[k], id), Misrouted(es[k], id));
    }
  }

  // ---------- An example ----------

  /** One player with a party key, given to the solo manager. */
  const ODD: TicketInfo := TicketInfo({1}, 5)

  /** The engine once his ticket is matched. */
  ghost function OddMatched(): Engine {
    Engine(map[7 := ODD], map[7 := Searching], {}, {7}, {[7]}, map[], map[], [], multiset{}, [], map[],
           map[7 := false])
  }

  lemma OddSteps(e0: Engine) returns (e1: Engine, e2: Engine)
    requires Initial(e0)
    ensures Enabled(e0, Register(7, ODD, false)) && e1 == Apply(e0, Register(7, ODD, false))
    ensures Enabled(e1, Enqueue(7, false, true)) && e2 == Apply(e1, Enqueue(7, false, true))
    ensures Enabled(e2, Match([7], false)) && Apply(e2, Match([7], false)) == OddMatched()
  {
    e1 := AfterRegister(e0, 7, ODD, false);
    assert e1 == Engine(map[7 := ODD], map[7 := Unset], {}, {7}, {}, map[], map[], [], multiset{}, [], map[],
                        map[7 := false]);
    e2 := AfterQueue(e1, 7, false, true);
    assert e2.status == map[7 := Queued];
    assert SetAll(e2.status, ToSet([7]), Searching) == map[7 := Searching];
  }

  lemma OddStops()
    ensures Enabled(OddMatched(), Create([7], 0, true))
    ensures Enabled(Apply(OddMatched(), Create([7], 0, true)), Stop(1, false, false, 0))
  {
  }

  /** His session asks him, and holds no answer. */
  ghost predicate OddAsked(e: Engine) {
    && 7 in e.sessions && e.sessions[7].status.RequiresAcceptance? && e.sessions[7].tickets == [7]
    && 1 in e.sessions[7].answers && !e.sessions[7].answers[1].responded
    && 7 in e.info && e.info[7] == ODD && 7 in e.route && !e.route[7] && e.log == multiset{}
  }

  lemma OddCreated()
    ensures OddAsked(Created(OddMatched(), [7], 0))
    ensures PlayersOf(OddMatched().info, [7]) !! OddMatched().index.Keys
    ensures Misrouted(OddMatched(), 7)
  {
    hide AcceptJobs;
    var id: TicketId := 7;
    var info := OddMatched().info;
    assert id in [7] && id in info && 1 in info[id].players;
    assert 1 in PlayersOf(info, [7]);
  }

  lemma OddEnds(es: seq<Engine>, steps: seq<Step>)
    requires IsRun(es, steps) && |es| == 6 && es[3] == OddMatched()
    requires steps[3] == Create([7], 0, true) && steps[4] == Stop(1, false, false, 0)
    ensures 7 in es[4].sessions && es[4].sessions[7].status.RequiresAcceptance? && 7 in es[4].solo
    ensures 7 !in es[5].sessions && es[5].log[Entry(7, 1, false)] == 1 && 7 in es[5].solo
  {
    var e3, e4 := es[3], es[4];
    assert e4 == AfterCreate(e3.(flight := e3.flight - {[7]}), [7], 0, true);
    assert es[5] == AfterStop(e4, 1, false, false, 0);
    assert [7] in e3.flight;
    hide AfterCreate, AfterStop, EngineSane, Created, PlayersOf, Core, IsRun, OddMatched;
    RunStaysSane(es, steps, 3);
    RunStaysSane(es, steps, 4);
    EngineEarly(e3);
    EngineEarly(e4);
    CreateIs(e3, [7], 0, true);
    OddCreated();
    OwnershipPassesIfRouted(e3, [7], 0, true, 7);
    OddStopped(e4, es[5]);
  }

  lemma OddStopped(e: Engine, e': Engine)
    requires Core(e) && OddAsked(e) && Registered(e, 7) && e' == AfterStop(e, 1, false, false, 0)
    ensures 7 in e.solo && 7 in e'.solo && 7 !in e'.sessions && e'.log[Entry(7, 1, false)] == 1
  {
    hide AfterStop, Core, RegistriesSane, FlightSane, LateSane;
    var id: TicketId := 7;
    assert id in e.sessions[7].tickets && Misrouted(e, id);
    StopWhileAsked(e, 1, false, false, 0, 7);
    OddHolds(e);
  }

  lemma OddHolds(e: Engine)
    requires Core(e) && 7 in e.route && !e.route[7] && Registered(e, 7)
    ensures 7 in e.solo
  {
    hide LateSane, FlightSane, RegistriesSane;
  }

  /** His ticket is matched and becomes a session; a stop before he answers fails it. */
  lemma MisroutedStopRejects()
    ensures exists es: seq<Engine>, steps: seq<Step> ::
      && IsRun(es, steps) && |es| == 6 && steps[4] == Stop(1, false, false, 0)
      && 7 in es[4].sessions && es[4].sessions[7].status.RequiresAcceptance? && 7 in es[4].solo
      && 7 !in es[5].sessions && es[5].log[Entry(7, 1, false)] == 1 && 7 in es[5].solo
  {
    hide Apply, Enabled;
    var e0 := Engine(map[], map[], {}, {}, {}, map[], map[], [], multiset{}, [], map[], map[]);
    var e1, e2 := OddSteps(e0);
    OddStops();
    var e3 := OddMatched();
    var e4 := Apply(e3, Create([7], 0, true));
    var e5 := Apply(e4, Stop(1, false, false, 0));
    var es := [e0, e1, e2, e3, e4, e5];
    var steps := [Register(7, ODD, false), Enqueue(7, false, true), Match([7], false), Create([7], 0, true),
                  Stop(1, false, false, 0)];
    assert IsRun(es, steps);
    OddEnds(es, steps);
  }
}
