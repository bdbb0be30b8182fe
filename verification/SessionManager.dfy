/** The match session manager on the ticket, session and registry objects: each handler is proved to be the
    corresponding handler of SessionProtocol. */
module SessionManagers {
  import opened Tickets
  import opened Ordered
  import opened TimedQueue
  import AsyncJobs
  import opened Registries
  import opened SessionProtocol
  import opened SessionSafety
  import opened SessionTheorems
  import opened MatchSessions

  function InfoOf(t: Ticket): TicketInfo {
    TicketInfo(t.players, t.partyKey)
  }

  ghost function TicketIds(tickets: seq<Ticket>): (r: seq<TicketId>)
    ensures |r| == |tickets|
  {
    seq(|tickets|, i requires 0 <= i < |tickets| => tickets[i].id)
  }

  ghost predicate OwnKeyed(all: map<TicketId, Ticket>) {
    forall id :: id in all ==> all[id].id == id
  }

  ghost predicate Among(tickets: seq<Ticket>, all: map<TicketId, Ticket>) {
    forall t :: t in tickets ==> t.id in all && all[t.id] == t
  }

  ghost predicate Within(some: map<TicketId, Ticket>, all: map<TicketId, Ticket>) {
    forall id :: id in some ==> id in all && some[id] == all[id]
  }

  lemma IdsMatchTickets(tickets: seq<Ticket>, all: map<TicketId, Ticket>)
    requires Among(tickets, all) && OwnKeyed(all)
    ensures forall id :: id in TicketIds(tickets) <==> id in all && all[id] in tickets
    ensures Distinct(tickets) <==> NoDuplicates(TicketIds(tickets))
  {
    forall id ensures id in TicketIds(tickets) <==> id in all && all[id] in tickets {
      if id in TicketIds(tickets) {
        var i :| 0 <= i < |tickets| && TicketIds(tickets)[i] == id;
        assert tickets[i] in tickets;
      }
      if id in all && all[id] in tickets {
        var i :| 0 <= i < |tickets| && tickets[i] == all[id];
        assert TicketIds(tickets)[i] == id;
      }
    }
    forall i, j | 0 <= i < j < |tickets| ensures TicketIds(tickets)[i] == TicketIds(tickets)[j] <==> tickets[i] == tickets[j] {
      assert tickets[i] in tickets && tickets[j] in tickets;
    }
    if Distinct(tickets) {
      forall i, j | 0 <= i < j < |tickets| ensures TicketIds(tickets)[i] != TicketIds(tickets)[j] {
        assert tickets[i] != tickets[j];
      }
    }
    if NoDuplicates(TicketIds(tickets)) {
      forall i, j | 0 <= i < j < |tickets| ensures tickets[i] != tickets[j] {
        assert TicketIds(tickets)[i] != TicketIds(tickets)[j];
      }
    }
  }

  class MatchSessionManager {
    const party: TicketRegistry
    const solo: TicketRegistry
    var sessions: map<TicketId, MatchSession>
    var byPlayer: Index
    const worker: AsyncJobs.AsyncJobWorker<Job>
    var penalties: seq<(PlayerKey, int)>
    /** Every ticket ever made, the matches on their way here, and the history. */
    ghost var all: map<TicketId, Ticket>
    ghost var flight: set<seq<TicketId>>
    ghost var log: multiset<Entry>
    ghost var done: map<TicketId, Session>
    ghost var route: map<TicketId, bool>

    constructor ()
      ensures Valid() && Initial(State())
      ensures fresh(party) && fresh(solo) && fresh(worker)
    {
      party := new TicketRegistry();
      solo := new TicketRegistry();
      worker := new AsyncJobs.AsyncJobWorker();
      sessions, byPlayer, penalties := map[], map[], [];
      all, flight, log, done, route := map[], {}, multiset{}, map[], map[];
    }

    ghost predicate Valid()
      reads this`all, this`sessions, SessionSet()`answers, party, solo, worker
    {
      RegistriesValid() && SessionsValid() && worker.Valid()
    }

    ghost predicate RegistriesValid()
      reads this`all, party, solo
    {
      && party != solo && party.Valid() && solo.Valid() && OwnKeyed(all)
      && Within(party.tickets, all) && Within(solo.tickets, all)
    }

    ghost function SessionSet(): set<MatchSession>
      reads this`sessions
    {
      set m | m in sessions :: sessions[m]
    }

    ghost predicate SessionsValid()
      reads this`all, this`sessions, SessionSet()`answers
    {
      forall m :: m in sessions ==> SessionValid(m, sessions[m])
    }

    ghost predicate SessionValid(m: TicketId, s: MatchSession)
      reads this`all, s`answers
    {
      && s.id == m && s.tickets != [] && Distinct(s.tickets) && Among(s.tickets, all)
      && s.answers.Keys == AllPlayers(s.tickets)
    }

    ghost function Infos(): map<TicketId, TicketInfo>
      reads this`all
    {
      map id | id in all :: InfoOf(all[id])
    }

    ghost function Tickets(): set<Ticket>
      reads this`all
    {
      set id | id in all :: all[id]
    }

    ghost function Statuses(): map<TicketId, Status>
      reads this`all, Tickets()`status
    {
      map id | id in all :: all[id].status
    }

    ghost function SessionState(m: TicketId): Session
      requires m in sessions
      reads this`sessions, SessionSet()`status, SessionSet()`answers
    {
      Session(TicketIds(sessions[m].tickets), sessions[m].status, sessions[m].answers)
    }

    ghost function SessionStates(): map<TicketId, Session>
      reads this`sessions, SessionSet()`status, SessionSet()`answers
    {
      map m | m in sessions :: SessionState(m)
    }

    ghost function State(): Engine
      reads this, party, solo, worker, SessionSet()`status, SessionSet()`answers, Tickets()`status
    {
      Engine(Infos(), Statuses(), party.tickets.Keys, solo.tickets.Keys, flight, SessionStates(), byPlayer, worker.waiting,
             log, penalties, done, route)
    }

    lemma StatusesAre(want: map<TicketId, Status>)
      requires want.Keys == all.Keys && forall id :: id in all ==> want[id] == all[id].status
      ensures Statuses() == want
    {
      forall id | id in all ensures Statuses()[id] == want[id] {
      }
      assert Statuses().Keys == want.Keys;
    }

    lemma StateMeans()
      ensures State().status.Keys == all.Keys && forall id :: id in all ==> State().status[id] == all[id].status
      ensures State().sessions.Keys == sessions.Keys
      ensures forall m :: m in sessions ==> State().sessions[m] == SessionState(m) && sessions[m] in SessionSet()
      ensures State().info.Keys == all.Keys && forall id :: id in all ==> State().info[id] == InfoOf(all[id])
      ensures forall id :: id in all ==> all[id] in Tickets()
    {
    }

    lemma SessionsAre(want: map<TicketId, Session>)
      requires want.Keys == sessions.Keys && forall m :: m in sessions ==> want[m] == SessionState(m)
      ensures SessionStates() == want
    {
    }

    lemma SessionFacts(m: TicketId)
      requires Valid() && m in sessions
      ensures SessionValid(m, sessions[m]) && OwnKeyed(all)
      ensures sessions[m] in SessionSet()
      ensures forall x :: x in sessions && sessions[x] == sessions[m] ==> x == m
      ensures forall id :: id in TicketIds(sessions[m].tickets) <==> id in all && all[id] in sessions[m].tickets
      ensures forall id :: id in all ==> all[id] in Tickets()
    {
      IdsMatchTickets(sessions[m].tickets, all);
      forall x | x in sessions && sessions[x] == sessions[m] ensures x == m {
        assert SessionValid(x, sessions[x]) && SessionValid(m, sessions[m]);
      }
    }

    /** Moves a session and its tickets, or nothing. */
    method ChangeSession(m: TicketId, s: MatchSession, next: Status) returns (ok: bool)
      requires Valid() && m in sessions && sessions[m] == s
      modifies s`status, TicketSet(s.tickets)`status
      ensures Valid()
      ensures ok <==> SessionCanChange(old(State()), m, next)
      ensures State() == if ok then Moved(old(State()), m, next) else old(State())
    {
      hide RegistriesValid, SessionsValid, OwnKeyed, Among, Infos, Statuses, SessionStates, SessionCanChange, SetAll;
      StateMeans();
      ghost var e := State();
      ghost var e' := Moved(e, m, next);
      SessionFacts(m);
      CanChangeMeans(m, next);
      ok := s.ChangeStatus(next);
      TicketsMoved(e.status, s.tickets, ok, next);
      forall x | x in sessions && x != m ensures SessionState(x) == e.sessions[x] {
        assert sessions[x] != s;
      }
      SessionsAre(if ok then e'.sessions else e.sessions);
    }

    lemma TicketsMoved(status: map<TicketId, Status>, tickets: seq<Ticket>, ok: bool, next: Status)
      requires OwnKeyed(all) && Among(tickets, all) && status.Keys == all.Keys
      requires forall id :: id in all ==> all[id].status == if ok && all[id] in tickets then next else status[id]
      ensures Statuses() == if ok then SetAll(status, ToSet(TicketIds(tickets)), next) else status
    {
      IdsMatchTickets(tickets, all);
      StatusesAre(if ok then SetAll(status, ToSet(TicketIds(tickets)), next) else status);
    }

    lemma CanChangeMeans(m: TicketId, next: Status)
      requires Valid() && m in sessions
      ensures SessionCanChange(State(), m, next)
         <==> CanChangeStatus(sessions[m].status, next)
              && forall t :: t in sessions[m].tickets ==> CanChangeStatus(t.status, next)
      ensures State().sessions[m] == SessionState(m)
    {
      SessionFacts(m);
      forall id | id in TicketIds(sessions[m].tickets) ensures id in all && State().status[id] == all[id].status {
      }
      if SessionCanChange(State(), m, next) {
        forall t | t in sessions[m].tickets ensures CanChangeStatus(t.status, next) {
          assert t.id in TicketIds(sessions[m].tickets);
        }
      }
    }

    lemma SessionRoster(m: TicketId)
      requires SessionsValid() && m in sessions
      ensures sessions[m].answers.Keys == AllPlayers(sessions[m].tickets)
    {
      assert SessionValid(m, sessions[m]);
    }

    /** Takes a session out of the maps, with exactly its players' entries. */
    method EraseMatchSession(m: TicketId)
      requires Valid()
      modifies `sessions, `byPlayer
      ensures Valid()
      ensures State() == Erased(old(State()), m)
      ensures SessionSet() <= old(SessionSet())
    {
      hide RegistriesValid, SessionValid, Released, Infos, Statuses, SessionStates;
      StateMeans();
      if m !in sessions {
        return;
      }
      SessionRoster(m);
      ghost var e := State();
      var s := sessions[m];
      var roster := ListPlayers(s.tickets);
      byPlayer := ReleasePlayers(byPlayer, roster, m);
      sessions := sessions - {m};
      StatusesAre(e.status);
      SessionsAre(e.sessions - {m});
    }

    /** Ends a session, if it may still take its last status. */
    method EndSession(m: TicketId, s: MatchSession, next: Status) returns (ok: bool)
      requires Valid() && m in sessions && sessions[m] == s
      modifies `sessions, `byPlayer, SessionSet()`status, Tickets()`status
      ensures Valid()
      ensures ok <==> SessionCanChange(old(State()), m, next)
      ensures State() == if ok then Dropped(old(State()), m, next) else old(State())
      ensures !ok ==> sessions == old(sessions)
      ensures SessionSet() <= old(SessionSet())
    {
      hide Valid, State, SessionCanChange, Moved, Dropped, Erased;
      SessionReach(m);
      ghost var e := State();
      ok := ChangeSession(m, s, next);
      if !ok {
        return;
      }
      MoveThenErase(e, m, next);
      EraseMatchSession(m);
    }

    lemma SessionReach(m: TicketId)
      requires Valid() && m in sessions
      ensures sessions[m] in SessionSet() && TicketSet(sessions[m].tickets) <= Tickets()
      ensures m in State().sessions && State().sessions[m] == SessionState(m)
    {
      SessionFacts(m);
      StateMeans();
      assert SessionValid(m, sessions[m]);
    }

    lemma NoSession(m: TicketId)
      ensures m in State().sessions <==> m in sessions
    {
      StateMeans();
    }

    method OnFailedMatchSession(m: TicketId)
      requires Valid()
      modifies `sessions, `byPlayer, SessionSet()`status, Tickets()`status
      ensures Valid()
      ensures State() == AfterFail(old(State()), m)
      ensures SessionSet() <= old(SessionSet())
    {
      hide Valid, State, SessionCanChange, Dropped;
      NoSession(m);
      if m !in sessions {
        return;
      }
      var _ := EndSession(m, sessions[m], Failed);
    }

    method OnTimeOutAcceptMatchSession(m: TicketId)
      requires Valid()
      modifies `sessions, `byPlayer, SessionSet()`status, Tickets()`status
      ensures Valid()
      ensures State() == AfterTimeout(old(State()), m, RequiresAcceptance)
      ensures SessionSet() <= old(SessionSet())
    {
      hide Valid, State, SessionCanChange, Dropped;
      NoSession(m);
      if m !in sessions {
        return;
      }
      SessionReach(m);
      if !sessions[m].status.RequiresAcceptance? {
        return;
      }
      var _ := EndSession(m, sessions[m], TimedOut);
    }

    method OnTimeOutPlaceMatchSession(m: TicketId)
      requires Valid()
      modifies `sessions, `byPlayer, SessionSet()`status, Tickets()`status
      ensures Valid()
      ensures State() == AfterTimeout(old(State()), m, Placing)
      ensures SessionSet() <= old(SessionSet())
    {
      hide Valid, State, SessionCanChange, Dropped;
      NoSession(m);
      if m !in sessions {
        return;
      }
      SessionReach(m);
      if !sessions[m].status.Placing? {
        return;
      }
      var _ := EndSession(m, sessions[m], TimedOut);
    }

    /** The placement has an outcome; zoneOk says whether its zone could be registered. */
    method OnCompleteMatchSession(m: TicketId, success: bool, zoneOk: bool)
      requires Valid()
      modifies `sessions, `byPlayer, `done, SessionSet()`status, Tickets()`status
      ensures Valid()
      ensures State() == AfterComplete(old(State()), m, success, zoneOk)
      ensures SessionSet() <= old(SessionSet())
    {
      hide Valid, State, SessionCanChange, Dropped, AfterFail;
      NoSession(m);
      if !success || m !in sessions || !zoneOk {
        OnFailedMatchSession(m);
        return;
      }
      SessionReach(m);
      ghost var e := State();
      var ok := EndSession(m, sessions[m], Completed);
      if !ok {
        OnFailedMatchSession(m);
        return;
      }
      NoteDone(e.done[m := e.sessions[m]]);
    }

    /** History only. */
    ghost method NoteDone(d: map<TicketId, Session>)
      requires Valid()
      modifies `done
      ensures Valid() && State() == old(State()).(done := d)
    {
      done := d;
    }

    ghost method NoteAnswer(x: Entry)
      requires Valid()
      modifies `log
      ensures Valid() && State() == old(State()).(log := old(State()).log + multiset{x})
    {
      log := log + multiset{x};
    }

    /** All players have accepted: the session is placed, with jobs for the outcome and for its timeout. */
    method PlaceMatchSession(m: TicketId, now: int)
      requires Valid()
      modifies `sessions, `byPlayer, worker, SessionSet()`status, Tickets()`status
      ensures Valid()
      ensures State() == AfterPlace(old(State()), m, now)
      ensures SessionSet() <= old(SessionSet())
    {
      hide Valid, State, SessionCanChange, SetAll, AfterFail;
      NoSession(m);
      if m !in sessions {
        return;
      }
      SessionReach(m);
      if sessions[m].status.Placing? {
        return;
      }
      var ok := ChangeSession(m, sessions[m], Placing);
      if !ok {
        OnFailedMatchSession(m);
        return;
      }
      DoAsyncJob(now + PLACE_TIMEOUT_MSEC, TimeoutPlace(m));
      DoAsyncJob(now + COMPLETION_DELAY_MSEC, Complete(m));
    }

    method DoAsyncJob(due: int, job: Job)
      requires Valid()
      modifies worker
      ensures Valid() && State() == old(State()).(jobs := Insert(old(State()).jobs, due, job))
    {
      worker.EnqueueJobRequest(due, job);
    }

    // ---------- Answers ----------

    /** A player's answer enters his session, if it is his first. */
    method EnterAnswer(m: TicketId, s: MatchSession, p: PlayerKey, accept: bool) returns (ok: bool)
      requires Valid() && m in sessions && sessions[m] == s
      modifies s`answers
      ensures Valid()
      ensures ok <==> p in old(s.answers) && !old(s.answers)[p].responded
      ensures State() == if ok then Entered(old(State()), m, p, accept) else old(State())
    {
      hide RegistriesValid, Among, Distinct, AllPlayers, Infos, Statuses, SessionStates;
      StateMeans();
      SessionFacts(m);
      ghost var e := State();
      ok := s.AcceptPlayerSession(p, accept);
      forall x | x in sessions
        ensures SessionValid(x, sessions[x])
        ensures x != m ==> SessionState(x) == e.sessions[x]
      {
        assert old(SessionValid(x, sessions[x]));
        assert x != m ==> sessions[x] != s;
      }
      SessionsAre(if ok then Entered(e, m, p, accept).sessions else e.sessions);
      StatusesAre(e.status);
    }

    /** Records an answer that counts. */
    method RecordAnswer(m: TicketId, s: MatchSession, p: PlayerKey, accept: bool) returns (ok: bool)
      requires Valid() && m in sessions && sessions[m] == s
      modifies s`answers, `log
      ensures Valid()
      ensures ok <==> p in old(s.answers) && !old(s.answers)[p].responded
      ensures State() == if ok then Recorded(old(State()), m, p, accept) else old(State())
    {
      hide Valid, State;
      SessionReach(m);
      ok := EnterAnswer(m, s, p, accept);
      if ok {
        NoteAnswer(Entry(m, p, accept));
      }
    }

    /** One player's answer: the first that counts is recorded; a rejection ends the session and is punished,
        the last acceptance starts the placement. */
    method AcceptMatchSession(p: PlayerKey, accept: bool, now: int)
      requires Valid()
      modifies `sessions, `byPlayer, worker, `penalties, `log
      modifies SessionSet()`status, SessionSet()`answers, Tickets()`status
      ensures Valid()
      ensures State() == AfterAnswer(old(State()), p, accept, now)
      ensures SessionSet() <= old(SessionSet())
    {
      hide Valid, State, SessionCanChange, AfterFail, AfterPlace;
      IndexMeans();
      if p !in byPlayer {
        return;
      }
      var m := byPlayer[p];
      NoSession(m);
      if m !in sessions {
        return;
      }
      SessionReach(m);
      var s := sessions[m];
      if s.IsAllAcceptPlayerSession() {
        return;
      }
      if !s.status.RequiresAcceptance? {
        return;
      }
      var recorded := RecordAnswer(m, s, p, accept);
      if !recorded {
        return;
      }
      if !accept {
        AddDodgePenalty(p, now + DODGE_PENALTY_MSEC);
        OnFailedMatchSession(m);
        return;
      }
      SessionReach(m);
      if s.IsAllAcceptPlayerSession() {
        PlaceMatchSession(m, now);
      }
    }

    lemma IndexMeans()
      ensures State().index == byPlayer
    {
    }

    /** Hands a penalty to the penalty manager. */
    method AddDodgePenalty(p: PlayerKey, until: int)
      requires Valid()
      modifies `penalties
      ensures Valid() && State() == old(State()).(penalties := old(State()).penalties + [(p, until)])
    {
      penalties := penalties + [(p, until)];
    }

    // ---------- Creation ----------

    /** What the value-level names mean for a list of this manager's tickets. */
    lemma ListMeans(tickets: seq<Ticket>)
      requires OwnKeyed(all) && Among(tickets, all) && Distinct(tickets)
      ensures var e, ids := State(), TicketIds(tickets);
              && PlayersOf(e.info, ids) == AllPlayers(tickets) && Roster(e.info, ids) == RosterOf(tickets)
              && (Claimable(e, ids) <==> NoDuplicates(RosterOf(tickets)) && AllPlayers(tickets) !! byPlayer.Keys)
    {
      hide RosterOf, Roster, PlayersOf, AllPlayers, Apart, NoDuplicates;
      StateMeans();
      IdsMatchTickets(tickets, all);
      PlayersMatch(tickets, all, State().info);
      RosterMatches(tickets, all, State().info);
      RosterApart(State().info, TicketIds(tickets));
    }

    /** Inserting fails if the id is in use or a player is claimed, by another session or by another ticket of
        this one; then both maps are as before. */
    method InsertMatchSession(s: MatchSession) returns (ok: bool)
      requires Valid() && SessionValid(s.id, s)
      modifies `sessions, `byPlayer
      ensures Valid()
      ensures ok <==> s.id !in old(sessions)
                      && NoDuplicates(RosterOf(s.tickets)) && AllPlayers(s.tickets) !! old(byPlayer).Keys
      ensures sessions == if ok then old(sessions)[s.id := s] else old(sessions)
      ensures byPlayer == if ok then Claimed(old(byPlayer), AllPlayers(s.tickets), s.id) else old(byPlayer)
    {
      hide AsyncJobs.AsyncJobWorker.Valid, RegistriesValid, SessionValid, Claimed;
      if s.id in sessions {
        return false;
      }
      var roster := ListPlayers(s.tickets);
      sessions := sessions[s.id := s];
      ok, byPlayer := ClaimPlayers(byPlayer, roster, s.id);
      if !ok {
        sessions := sessions - {s.id};
        assert sessions == old(sessions);
      }
    }

    /** A new session object, not yet in the maps. */
    method NewSession(m: TicketId, tickets: seq<Ticket>) returns (s: MatchSession)
      requires Valid()
      ensures fresh(s) && s.id == m && s.tickets == tickets && s.status == Searching
      ensures s.answers == map p | p in AllPlayers(tickets) :: Answer(false, false)
      ensures Valid() && State() == old(State()) && s !in SessionSet()
    {
      hide RegistriesValid, SessionValid, Infos, Statuses, SessionStates;
      StateMeans();
      ghost var e := State();
      s := new MatchSession(m, tickets);
      s.ForceSetStatus(Searching);
      forall x | x in sessions ensures SessionValid(x, sessions[x]) && SessionState(x) == e.sessions[x] {
        assert old(SessionValid(x, sessions[x]));
      }
      SessionsAre(e.sessions);
      StatusesAre(e.status);
    }

    /** A new session for the tickets, if it can be inserted. */
    method OpenSession(m: TicketId, tickets: seq<Ticket>) returns (ok: bool, s: MatchSession)
      requires Valid() && tickets != [] && Distinct(tickets) && Among(tickets, all) && m == tickets[0].id
      modifies `sessions, `byPlayer
      ensures Valid() && fresh(s) && s.tickets == tickets
      ensures ok <==> m !in old(State()).sessions && Claimable(old(State()), TicketIds(tickets))
      ensures State() == if ok then Opened(old(State()), TicketIds(tickets)) else old(State())
      ensures sessions == if ok then old(sessions)[m := s] else old(sessions)
    {
      hide RegistriesValid, SessionsValid, Claimable, Claimed, Infos, Statuses, SessionStates, Among, Distinct;
      s := NewSession(m, tickets);
      AllOwnKeyed();
      ListMeans(tickets);
      StateMeans();
      ghost var e := State();
      ok := InsertMatchSession(s);
      if ok {
        StatesAfterOpening(e, m, s);
      } else {
        SessionsAre(e.sessions);
      }
      StatusesAre(e.status);
    }

    lemma AllOwnKeyed()
      requires Valid()
      ensures OwnKeyed(all)
    {
    }

    lemma StatesAfterOpening(e: Engine, m: TicketId, s: MatchSession)
      requires m in sessions && sessions[m] == s && s.tickets != [] && s.status == Searching
      requires m == TicketIds(s.tickets)[0] && m !in e.sessions && sessions.Keys == e.sessions.Keys + {m}
      requires forall x :: x in sessions && x != m ==> SessionState(x) == e.sessions[x]
      requires s.answers == Blank(e.info, TicketIds(s.tickets))
      ensures SessionStates() == Opened(e, TicketIds(s.tickets)).sessions
    {
      SessionsAre(Opened(e, TicketIds(s.tickets)).sessions);
    }

    // ---------- Handing tickets back ----------

    function RegistryOf(toParty: bool): TicketRegistry {
      if toParty then party else solo
    }

    /** The ticket fails, if it still may, and leaves the registry of the manager it belongs to. */
    method NotifyMatchmakingFailure(t: Ticket)
      requires Valid() && t.id in all && all[t.id] == t
      modifies t`status, party, solo
      ensures Valid()
      ensures State() == NotifiedFailure(old(State()), {t.id})
    {
      hide Valid, State;
      ghost var e := State();
      var changed := FailTicket(t);
      if changed {
        LeaveRegistry(t);
      }
      NotifyOne(e, t.id);
    }

    /** A ticket changes its status, if the table lets it. */
    method ChangeTicket(t: Ticket, next: Status) returns (ok: bool)
      requires Valid() && t.id in all && all[t.id] == t
      modifies t`status
      ensures Valid() && t.id in old(State()).status
      ensures ok <==> CanChangeStatus(old(State()).status[t.id], next)
      ensures State() == if ok then old(State()).(status := old(State()).status[t.id := next]) else old(State())
    {
      hide RegistriesValid, SessionValid, SessionStates, Statuses, Infos;
      StateMeans();
      ghost var e := State();
      AllOwnKeyed();
      ok := t.ChangeStatus(next);
      StatusesAre(if ok then e.status[t.id := next] else e.status);
      SessionsAre(e.sessions);
    }

    method FailTicket(t: Ticket) returns (ok: bool)
      requires Valid() && t.id in all && all[t.id] == t
      modifies t`status
      ensures Valid()
      ensures t.id in old(State()).status && (ok <==> CanChangeStatus(old(State()).status[t.id], Failed))
      ensures State() == old(State()).(status := FailEach(old(State()).status, {t.id}))
    {
      hide Valid, State, FailEach;
      ghost var e := State();
      ok := ChangeTicket(t, Failed);
      FailOne(e.status, t.id);
    }

    /** A ticket leaves one manager's registry. */
    method EraseMatchTicket(toParty: bool, id: TicketId)
      requires Valid()
      modifies RegistryOf(toParty)
      ensures Valid()
      ensures State() == WithRegistry(old(State()), toParty, Registry(old(State()), toParty) - {id})
    {
      hide SessionValid, TicketRegistry.Valid, SessionStates, Statuses, Infos;
      StateMeans();
      ghost var e := State();
      var _ := RegistryOf(toParty).Erase(id);
      forall m | m in sessions ensures SessionValid(m, sessions[m]) && SessionState(m) == e.sessions[m] {
        assert old(SessionValid(m, sessions[m]));
      }
      SessionsAre(e.sessions);
      StatusesAre(e.status);
    }

    /** The ticket leaves the registry of the manager it belongs to. */
    method LeaveRegistry(t: Ticket)
      requires Valid() && t.id in all && all[t.id] == t
      modifies party, solo
      ensures Valid()
      ensures State() == Expired(old(State()), {t.id})
    {
      StateMeans();
      hide Valid, State, Expired, WithRegistry;
      ExpireOne(State(), t.id);
      EraseMatchTicket(t.IsParty(), t.id);
    }

    method NotifyAll(tickets: seq<Ticket>)
      requires Valid() && Among(tickets, all)
      modifies TicketSet(tickets)`status, party, solo
      ensures Valid()
      ensures State() == NotifiedFailure(old(State()), ToSet(TicketIds(tickets)))
    {
      hide Valid, State, NotifiedFailure;
      ghost var e := State();
      NotifyNone(e);
      assert TicketIds(tickets[..0]) == [];
      for i := 0 to |tickets|
        invariant Valid()
        invariant State() == NotifiedFailure(e, ToSet(TicketIds(tickets[..i])))
      {
        assert tickets[i] in tickets;
        NotifyMatchmakingFailure(tickets[i]);
        OneMoreId(tickets, i);
        NotifyMore(e, ToSet(TicketIds(tickets[..i])), tickets[i].id);
      }
      assert tickets[..|tickets|] == tickets;
    }

    method ExpireAll(tickets: seq<Ticket>)
      requires Valid() && Among(tickets, all)
      modifies party, solo
      ensures Valid()
      ensures State() == Expired(old(State()), ToSet(TicketIds(tickets)))
    {
      hide Valid, State, Expired;
      ghost var e := State();
      ExpireNone(e);
      assert TicketIds(tickets[..0]) == [];
      for i := 0 to |tickets|
        invariant Valid()
        invariant State() == Expired(e, ToSet(TicketIds(tickets[..i])))
      {
        assert tickets[i] in tickets;
        LeaveRegistry(tickets[i]);
        OneMoreId(tickets, i);
        ExpireMore(e, ToSet(TicketIds(tickets[..i])), tickets[i].id);
      }
      assert tickets[..|tickets|] == tickets;
    }

    /** Books the automatic acceptances, one player after the other. */
    method BookAutoAccepts(tickets: seq<Ticket>, now: int)
      requires Valid()
      modifies worker
      ensures Valid()
      ensures State() == old(State()).(jobs := AutoAccepts(old(State()).jobs, now, RosterOf(tickets)))
    {
      hide Valid, State, Insert;
      ghost var e := State();
      var roster := RosterOf(tickets);
      for i := 0 to |roster|
        invariant Valid()
        invariant State() == e.(jobs := AutoAccepts(e.jobs, now, roster[..i]))
      {
        assert roster[..i + 1][..i] == roster[..i];
        DoAsyncJob(now + AUTO_ACCEPT_DELAY_MSEC * (i + 1), AutoAccept(roster[i]));
      }
      assert roster[..|roster|] == roster;
    }

    /** The new session starts to ask: its tickets leave their registry, and the jobs are booked. */
    method AskPlayers(m: TicketId, s: MatchSession, tickets: seq<Ticket>, now: int)
      requires Valid() && m in sessions && sessions[m] == s && s.tickets == tickets && Among(tickets, all)
      requires tickets != [] && m == tickets[0].id
      requires Roster(State().info, TicketIds(tickets)) == RosterOf(tickets)
      modifies `sessions, `byPlayer, worker, party, solo, SessionSet()`status, Tickets()`status
      ensures Valid()
      ensures m in old(State()).sessions && State() == Asked(old(State()), TicketIds(tickets), now)
    {
      hide Valid, State, Expired, SetAll, SessionCanChange, AfterFail, Insert, AutoAccepts;
      SessionReach(m);
      ghost var e := State();
      var changed := ChangeSession(m, s, RequiresAcceptance);
      if !changed {
        OnFailedMatchSession(m);
        return;
      }
      ExpireAll(tickets);
      ExpireKeepsJobs(Moved(e, m, RequiresAcceptance), ToSet(TicketIds(tickets)));
      DoAsyncJob(now + ACCEPT_TIMEOUT_MSEC, TimeoutAccept(m));
      BookAutoAccepts(tickets, now);
    }

    /** A match becomes a session, or all its tickets fail. */
    method CreateMatchSession(tickets: seq<Ticket>, now: int, worldFound: bool)
      requires Valid() && Distinct(tickets) && Among(tickets, all)
      modifies `sessions, `byPlayer, worker, `flight, party, solo
      modifies SessionSet()`status, Tickets()`status
      ensures Valid()
      ensures var e := old(State()).(flight := old(State()).flight - {TicketIds(tickets)});
              State() == AfterCreate(e, TicketIds(tickets), now, worldFound)
    {
      hide Valid, State, NotifiedFailure, Opened, Claimable, Among, Distinct, Asked;
      ghost var ids := TicketIds(tickets);
      Land(ids);
      CreateIsAsked(State(), ids, now, worldFound);
      if tickets == [] {
        return;
      }
      TicketsAmong(tickets);
      if !worldFound {
        NotifyAll(tickets);
        return;
      }
      AllOwnKeyed();
      ListMeans(tickets);
      OpenedInfo(State(), ids);
      var ok, s := OpenSession(tickets[0].id, tickets);
      if !ok {
        EraseMatchSession(tickets[0].id);
        NotifyAll(tickets);
        return;
      }
      AskPlayers(tickets[0].id, s, tickets, now);
    }

    /** The match has arrived. */
    ghost method Land(ids: seq<TicketId>)
      requires Valid()
      modifies `flight
      ensures Valid() && State() == old(State()).(flight := old(State()).flight - {ids})
    {
      flight := flight - {ids};
    }

    lemma TicketsAmong(tickets: seq<Ticket>)
      requires Among(tickets, all)
      ensures TicketSet(tickets) <= Tickets()
    {
    }

    // ---------- The job queue ----------

    /** Runs the first job if it is due. */
    method DoWorkerAsyncJob(now: int, zoneOk: bool) returns (ran: bool)
      requires Valid()
      modifies `sessions, `byPlayer, worker, `penalties, `log, `done
      modifies SessionSet()`status, SessionSet()`answers, Tickets()`status
      ensures Valid()
      ensures ran <==> AsyncJobs.Available(old(worker.waiting), now)
      ensures State() == if ran then AfterJob(old(State()), now, zoneOk) else old(State())
      ensures SessionSet() <= old(SessionSet())
    {
      JobsMean();
      hide Valid, State, AfterAnswer, AfterTimeout, AfterComplete;
      ghost var waiting := worker.waiting;
      var job := TakeJob(now);
      if job == [] {
        return false;
      }
      match job[0] {
        case TimeoutAccept(m) => OnTimeOutAcceptMatchSession(m);
        case AutoAccept(p) => AcceptMatchSession(p, true, now);
        case TimeoutPlace(m) => OnTimeOutPlaceMatchSession(m);
        case Complete(m) => OnCompleteMatchSession(m, true, zoneOk);
      }
      return true;
    }

    /** The job worker with nobody else active, running each job when it falls due: it empties its queue, and
        if the state was sane it leaves no session and no indexed player. */
    method RunUntilIdle(zoneOk: TicketId -> bool)
      requires Valid()
      modifies `sessions, `byPlayer, worker, `penalties, `log, `done
      modifies SessionSet()`status, SessionSet()`answers, Tickets()`status
      ensures Valid()
      ensures State() == Settled(old(State()), zoneOk)
      ensures EngineSane(old(State())) ==> worker.waiting == [] && sessions == map[] && byPlayer == map[]
    {
      hide Valid, State, AfterJob, Settled, EngineSane;
      ghost var e := State();
      JobsMean();
      while worker.waiting != []
        invariant Valid() && State().jobs == worker.waiting
        invariant Settled(State(), zoneOk) == Settled(e, zoneOk)
        invariant SessionSet() <= old(SessionSet()) && Tickets() == old(Tickets())
        decreases Weight(worker.waiting)
      {
        var ok := HeadOk(worker.waiting, zoneOk);
        SettledStep(State(), zoneOk);
        JobShrinksWeight(State(), worker.waiting[0].0, ok);
        var ran := DoWorkerAsyncJob(worker.waiting[0].0, ok);
        JobsMean();
      }
      SettledDone(State(), zoneOk);
      if EngineSane(e) {
        QueueEndsAllSessions(e, zoneOk);
        EmptyMeans();
      }
    }

    lemma EmptyMeans()
      requires State().sessions == map[]
      ensures sessions == map[] && State().index == byPlayer
    {
      StateMeans();
      forall m ensures m !in sessions {
        assert m in sessions <==> m in State().sessions;
      }
    }

    lemma JobsMean()
      ensures State().jobs == worker.waiting
    {
    }

    /** The worker hands over its first job, if that is due. */
    method TakeJob(now: int) returns (job: seq<Job>)
      requires Valid()
      modifies worker
      ensures Valid()
      ensures job == if AsyncJobs.Available(old(worker.waiting), now) then [old(worker.waiting)[0].1] else []
      ensures State() == if job == [] then old(State()) else old(State()).(jobs := old(worker.waiting)[1..])
    {
      job := worker.DoWorkerAsyncJob(now);
    }

    /** No job that this manager booked is lost, runs twice or runs early. */
    lemma JobsAccounted()
      requires Valid()
      ensures multiset(worker.waiting) + AsyncJobs.Fulfilled(worker.ran) == AsyncJobs.Booked(worker.history)
      ensures InOrder(State().jobs)
      ensures forall k :: 0 <= k < |worker.ran| ==> worker.ran[k].due <= worker.ran[k].at
    {
      worker.Accounted();
    }

    // ---------- The managers' side ----------

    lemma TakenMeans(toParty: bool, players: set<PlayerKey>)
      requires Valid()
      ensures Taken(State(), toParty, players) <==> !(players !! RegistryOf(toParty).byPlayer.Keys)
    {
      StateMeans();
      var r := RegistryOf(toParty);
      r.ClaimedMeans(players);
      assert Within(r.tickets, all);
      forall id | id in r.tickets ensures id in State().info && State().info[id].players == r.tickets[id].players {
      }
    }

    /** A new ticket object, known to nobody yet. */
    method MakeTicket(id: TicketId, partyKey: int, players: set<PlayerKey>) returns (t: Ticket)
      requires Valid()
      ensures Valid() && fresh(t) && t.id == id && t.partyKey == partyKey && t.players == players && t.status == Unset
      ensures State() == old(State())
    {
      hide TicketRegistry.Valid, SessionValid, Infos, Statuses, SessionStates;
      StateMeans();
      ghost var e := State();
      t := new Ticket(id, partyKey, players);
      forall m | m in sessions ensures SessionValid(m, sessions[m]) && SessionState(m) == e.sessions[m] {
        assert old(SessionValid(m, sessions[m]));
      }
      SessionsAre(e.sessions);
      StatusesAre(e.status);
    }

    ghost method AddTicket(t: Ticket, toParty: bool)
      requires Valid() && t.id !in all && t.status == Unset
      modifies `all, `route
      ensures Valid() && all == old(all)[t.id := t] && t.id !in party.tickets && t.id !in solo.tickets
      ensures State() == Issued(old(State()), t.id, InfoOf(t), toParty, Unset)
    {
      hide TicketRegistry.Valid, Infos, Statuses, SessionStates, Within, OwnKeyed, Among, Distinct;
      StateMeans();
      ghost var e := State();
      MoreTickets(party.tickets, solo.tickets, all, t);
      forall m | m in sessions ensures Among(sessions[m].tickets, all[t.id := t]) {
        MoreAmong(sessions[m].tickets, all, t);
      }
      all, route := all[t.id := t], route[t.id := toParty];
      InfosAre(e.info[t.id := InfoOf(t)]);
      StatusesAre(e.status[t.id := Unset]);
      SessionsAre(e.sessions);
    }

    lemma InfosAre(want: map<TicketId, TicketInfo>)
      requires want.Keys == all.Keys && forall id :: id in all ==> want[id] == InfoOf(all[id])
      ensures Infos() == want
    {
      forall id | id in all ensures Infos()[id] == want[id] {
      }
      assert Infos().Keys == want.Keys;
    }

    /** A manager takes a new ticket into its registry, unless one of its players is there already; then the
        ticket fails at once. */
    method StartMatchmaking(id: TicketId, partyKey: int, players: set<PlayerKey>, toParty: bool)
      returns (t: Ticket, ok: bool)
      requires Valid() && id !in all
      modifies `all, `route, RegistryOf(toParty)
      ensures Valid() && fresh(t) && t.id == id && all == old(all)[id := t]
      ensures ok <==> !Taken(old(State()), toParty, players)
      ensures State() == AfterRegister(old(State()), id, TicketInfo(players, partyKey), toParty)
    {
      hide Valid, State;
      TakenMeans(toParty, players);
      ghost var e := State();
      IssueThenEnter(e, id, TicketInfo(players, partyKey), toParty);
      t := MakeTicket(id, partyKey, players);
      AddTicket(t, toParty);
      ok := EnterRegistry(t, toParty);
      if !ok {
        var _ := FailTicket(t);
      }
    }

    method EnterRegistry(t: Ticket, toParty: bool) returns (ok: bool)
      requires Valid() && t.id in all && all[t.id] == t && t.id !in RegistryOf(toParty).tickets
      modifies RegistryOf(toParty)
      ensures Valid()
      ensures ok <==> t.players !! old(RegistryOf(toParty).byPlayer).Keys
      ensures State() == if ok then WithRegistry(old(State()), toParty, Registry(old(State()), toParty) + {t.id})
                         else old(State())
    {
      hide AsyncJobs.AsyncJobWorker.Valid, Claimed, TicketRegistry.Valid, SessionValid, Infos, Statuses, SessionStates;
      StateMeans();
      ghost var e := State();
      ok := RegistryOf(toParty).Insert(t);
      assert RegistryOf(toParty).tickets.Keys == Registry(e, toParty) + if ok then {t.id} else {};
      forall m | m in sessions ensures SessionValid(m, sessions[m]) && SessionState(m) == e.sessions[m] {
        assert old(SessionValid(m, sessions[m]));
      }
      SessionsAre(e.sessions);
      StatusesAre(e.status);
    }

    /** The group has taken a registered ticket or turned it away. */
    method QueueOutcome(t: Ticket, toParty: bool, accepted: bool)
      requires Valid() && t.id in all && all[t.id] == t
      modifies t`status, RegistryOf(toParty)
      ensures Valid()
      ensures t.id in old(State()).status
      ensures State() == AfterQueue(old(State()), t.id, toParty, accepted)
    {
      hide Valid, State, FailEach;
      if accepted {
        var _ := ChangeTicket(t, Queued);
      } else {
        EraseMatchTicket(toParty, t.id);
        var _ := FailTicket(t);
      }
    }

    lemma HoldersMean(toParty: bool, p: PlayerKey)
      requires Valid()
      ensures forall id :: id in Holders(State(), toParty, p)
                           <==> id in RegistryOf(toParty).tickets && p in RegistryOf(toParty).tickets[id].players
      ensures forall id :: id in RegistryOf(toParty).tickets ==> id in all && RegistryOf(toParty).tickets[id] == all[id]
      ensures RegistryOf(toParty).Valid()
    {
      var r := RegistryOf(toParty);
      assert Within(r.tickets, all);
      forall id | id in r.tickets ensures id in State().info && State().info[id].players == r.tickets[id].players {
      }
    }

    /** A player asks a manager to stop. */
    method StopMatchmaking(p: PlayerKey, toParty: bool, dodge: bool, now: int)
      requires Valid()
      modifies `sessions, `byPlayer, worker, `penalties, `log, RegistryOf(toParty)
      modifies SessionSet()`status, SessionSet()`answers, Tickets()`status
      ensures Valid()
      ensures State() == AfterStop(old(State()), p, toParty, dodge, now)
    {
      HoldersMean(toParty, p);
      StateMeans();
      hide Valid, State, Holders, AfterAnswer, CanChangeStatus;
      ghost var e := State();
      var found, id := RegistryOf(toParty).FindByPlayerKey(p);
      OnlyHolder(Holders(e, toParty, p), found, id);
      if !found {
        return;
      }
      var t := RegistryOf(toParty).tickets[id];
      assert t == all[id] && e.status[id] == t.status && t in Tickets() && t.id == id;
      if !toParty && t.status.RequiresAcceptance? {
        AcceptMatchSession(p, false, now);
        return;
      }
      var cancelled := ChangeTicket(t, Cancelled);
      if !cancelled {
        return;
      }
      EraseMatchTicket(toParty, id);
      if !toParty && dodge {
        AddDodgePenalty(p, now + DODGE_PENALTY_MSEC);
      }
    }
  }

  lemma OnlyHolder(holders: set<TicketId>, found: bool, id: TicketId)
    requires forall x :: x in holders ==> found && x == id
    requires found ==> id in holders
    ensures found <==> holders != {}
    ensures holders != {} ==> Pick(holders) == id
  {
    if holders != {} {
      assert Pick(holders) in holders;
    }
  }

  lemma MoreTickets(a: map<TicketId, Ticket>, b: map<TicketId, Ticket>, all: map<TicketId, Ticket>, t: Ticket)
    requires Within(a, all) && Within(b, all) && OwnKeyed(all) && t.id !in all
    ensures Within(a, all[t.id := t]) && Within(b, all[t.id := t]) && OwnKeyed(all[t.id := t])
    ensures t.id !in a && t.id !in b
  {
  }

  lemma MoreAmong(tickets: seq<Ticket>, all: map<TicketId, Ticket>, t: Ticket)
    requires Among(tickets, all) && t.id !in all
    ensures Among(tickets, all[t.id := t])
  {
  }

  lemma IssueThenEnter(e: Engine, id: TicketId, info: TicketInfo, toParty: bool)
    ensures AfterRegister(e, id, info, toParty)
         == var e1 := Issued(e, id, info, toParty, Unset);
            if Taken(e, toParty, info.players) then e1.(status := FailEach(e1.status, {id}))
            else WithRegistry(e1, toParty, Registry(e1, toParty) + {id})
  {
  }

  /** What becomes of a session that has just been opened. */
  ghost function Asked(e: Engine, list: seq<TicketId>, now: int): Engine
    requires list != [] && list[0] in e.sessions
  {
    if !SessionCanChange(e, list[0], RequiresAcceptance) then AfterFail(e, list[0])
    else Expired(Moved(e, list[0], RequiresAcceptance), ToSet(list)).(jobs := AcceptJobs(e, list, now))
  }

  /** The creation handler, in the steps the manager takes. */
  lemma CreateIsAsked(e: Engine, list: seq<TicketId>, now: int, worldFound: bool)
    ensures AfterCreate(e, list, now, worldFound)
         == (if list == [] then e
             else if !worldFound then NotifiedFailure(e, ToSet(list))
             else if list[0] in e.sessions || !Claimable(e, list)
             then NotifiedFailure(Erased(e, list[0]), ToSet(list))
             else Asked(Opened(e, list), list, now))
  {
    hide Claimable, NotifiedFailure, SessionCanChange, AfterFail, Expired, Moved, AutoAccepts;
  }

  lemma OpenedInfo(e: Engine, list: seq<TicketId>)
    requires list != []
    ensures Opened(e, list).info == e.info
  {
  }

  lemma ExpireKeepsJobs(e: Engine, ids: set<TicketId>)
    ensures Expired(e, ids).jobs == e.jobs
  {
  }

  lemma NotifyOne(e: Engine, id: TicketId)
    requires id in e.status
    ensures NotifiedFailure(e, {id})
         == var e1 := e.(status := FailEach(e.status, {id}));
            if CanChangeStatus(e.status[id], Failed) then Expired(e1, {id}) else e1
  {
  }

  lemma FailOne(status: map<TicketId, Status>, id: TicketId)
    requires id in status
    ensures FailEach(status, {id}) == if CanChangeStatus(status[id], Failed) then status[id := Failed] else status
  {
  }

  lemma ExpireOne(e: Engine, id: TicketId)
    requires id in e.info
    ensures var p := IsParty(e.info[id]); Expired(e, {id}) == WithRegistry(e, p, Registry(e, p) - {id})
  {
    assert OfParty(e, {id}) == if IsParty(e.info[id]) then {id} else {};
  }

  lemma NotifyNone(e: Engine)
    ensures NotifiedFailure(e, {}) == e && ToSet<TicketId>([]) == {}
  {
    assert FailEach(e.status, {}) == e.status;
  }

  lemma NotifyMore(e: Engine, ids: set<TicketId>, id: TicketId)
    ensures NotifiedFailure(NotifiedFailure(e, ids), {id}) == NotifiedFailure(e, ids + {id})
  {
    hide IsParty;
    var e1, both := NotifiedFailure(e, ids), ids + {id};
    assert FailEach(FailEach(e.status, ids), {id}) == FailEach(e.status, both);
    assert NotifiedFailure(e1, {id}).party == NotifiedFailure(e, both).party;
    assert NotifiedFailure(e1, {id}).solo == NotifiedFailure(e, both).solo;
  }

  lemma ExpireNone(e: Engine)
    ensures Expired(e, {}) == e && ToSet<TicketId>([]) == {}
  {
  }

  lemma ExpireMore(e: Engine, ids: set<TicketId>, id: TicketId)
    ensures Expired(Expired(e, ids), {id}) == Expired(e, ids + {id})
  {
  }

  lemma OneMoreId(tickets: seq<Ticket>, i: nat)
    requires i < |tickets|
    ensures ToSet(TicketIds(tickets[..i + 1])) == ToSet(TicketIds(tickets[..i])) + {tickets[i].id}
  {
    assert TicketIds(tickets[..i + 1]) == TicketIds(tickets[..i]) + [tickets[i].id];
  }

  ghost function Entered(e: Engine, m: TicketId, p: PlayerKey, accept: bool): Engine
    requires m in e.sessions
  {
    e.(sessions := e.sessions[m := e.sessions[m].(answers := e.sessions[m].answers[p := Answer(true, accept)])])
  }

  lemma MoveThenErase(e: Engine, m: TicketId, s: Status)
    requires m in e.sessions
    ensures Erased(Moved(e, m, s), m) == Dropped(e, m, s)
  {
    assert Moved(e, m, s).sessions - {m} == e.sessions - {m};
  }

  ghost function Erased(e: Engine, m: TicketId): Engine {
    if m !in e.sessions then e
    else e.(sessions := e.sessions - {m}, index := Released(e.index, e.sessions[m].answers.Keys, m))
  }

  /** The players of the tickets, ticket by ticket. */
  method ListPlayers(tickets: seq<Ticket>) returns (roster: seq<PlayerKey>)
    ensures roster == RosterOf(tickets) && ToSet(roster) == AllPlayers(tickets)
  {
    roster := [];
    for i := 0 to |tickets|
      invariant roster == RosterOf(tickets[..i]) && ToSet(roster) == AllPlayers(tickets[..i])
    {
      OneMorePlayers(tickets, i);
      assert tickets[..i + 1][..i] == tickets[..i];
      ConcatToSet(roster, Listed(tickets[i].players));
      roster := roster + Listed(tickets[i].players);
    }
    assert tickets[..|tickets|] == tickets;
  }

  function RosterOf(tickets: seq<Ticket>): seq<PlayerKey> {
    if tickets == [] then [] else RosterOf(tickets[..|tickets| - 1]) + Listed(tickets[|tickets| - 1].players)
  }

  lemma PlayersMatch(tickets: seq<Ticket>, all: map<TicketId, Ticket>, info: map<TicketId, TicketInfo>)
    requires OwnKeyed(all) && Among(tickets, all)
    requires info.Keys == all.Keys && forall id :: id in all ==> info[id] == InfoOf(all[id])
    ensures PlayersOf(info, TicketIds(tickets)) == AllPlayers(tickets)
  {
    IdsMatchTickets(tickets, all);
    forall p ensures p in PlayersOf(info, TicketIds(tickets)) <==> p in AllPlayers(tickets) {
      if p in AllPlayers(tickets) {
        var t :| t in tickets && p in t.players;
        var id := t.id;
        assert id in all && all[id] == t;
        assert id in TicketIds(tickets) && id in info && p in info[id].players;
      }
    }
  }

  lemma {:induction false} RosterMatches(tickets: seq<Ticket>, all: map<TicketId, Ticket>, info: map<TicketId, TicketInfo>)
    requires OwnKeyed(all) && Among(tickets, all)
    requires info.Keys == all.Keys && forall id :: id in all ==> info[id] == InfoOf(all[id])
    ensures Roster(info, TicketIds(tickets)) == RosterOf(tickets)
  {
    if tickets != [] {
      var front, last := tickets[..|tickets| - 1], tickets[|tickets| - 1];
      assert TicketIds(tickets)[..|tickets| - 1] == TicketIds(front);
      assert last in tickets;
      RosterMatches(front, all, info);
    }
  }
}
