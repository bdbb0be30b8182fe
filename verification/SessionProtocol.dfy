/** From registration to the end of a session, as a state machine whose steps are whole handlers: the two
    ticket registries, the matches on their way to a session, the live sessions with their player index,
    and the timed jobs that move sessions on. */
module SessionProtocol {
  import opened Tickets
  import opened Ordered
  import opened TimedQueue
  import opened Registries

  datatype TicketInfo = TicketInfo(players: set<PlayerKey>, partyKey: int)

  /** Which of the two managers a ticket is handed back to. */
  predicate IsParty(info: TicketInfo) {
    IsPartyRequest(info.players, info.partyKey)
  }

  /** A player's answer to the acceptance question, if any. */
  datatype Answer = Answer(responded: bool, accepted: bool)

  datatype Session = Session(tickets: seq<TicketId>, status: Status, answers: map<PlayerKey, Answer>)

  datatype Job =
    | TimeoutAccept(session: TicketId)
    | AutoAccept(player: PlayerKey)
    | TimeoutPlace(session: TicketId)
    | Complete(session: TicketId)

  /** One recorded answer. */
  datatype Entry = Entry(session: TicketId, player: PlayerKey, accepted: bool)

  const ACCEPT_TIMEOUT_MSEC := 60000
  const PLACE_TIMEOUT_MSEC := 10000
  const COMPLETION_DELAY_MSEC := 2000
  const AUTO_ACCEPT_DELAY_MSEC := 1000
  const DODGE_PENALTY_MSEC := 15000

  /** The last four components are history: every answer ever recorded, every dodge penalty handed out, the
      sessions that completed, as they were then, and which manager each ticket was registered with, the
      party manager or the solo manager. */
  datatype Engine = Engine(
    info: map<TicketId, TicketInfo>,
    status: map<TicketId, Status>,
    party: set<TicketId>,
    solo: set<TicketId>,
    flight: set<seq<TicketId>>,
    sessions: map<TicketId, Session>,
    index: Index,
    jobs: Queue<Job>,
    log: multiset<Entry>,
    penalties: seq<(PlayerKey, int)>,
    done: map<TicketId, Session>,
    route: map<TicketId, bool>)

  /** A ticket that was registered with one manager and is handed back to the other. */
  predicate Misrouted(e: Engine, id: TicketId) {
    id in e.info && id in e.route && e.route[id] != IsParty(e.info[id])
  }

  // ---------- Statuses ----------

  ghost function SetAll(status: map<TicketId, Status>, ids: set<TicketId>, s: Status): (r: map<TicketId, Status>)
    ensures r.Keys == status.Keys
  {
    map id | id in status :: if id in ids then s else status[id]
  }

  /** What failing each of the given tickets leaves behind: a ticket the table no longer lets fail stays. */
  ghost function FailEach(status: map<TicketId, Status>, ids: set<TicketId>): (r: map<TicketId, Status>)
    ensures r.Keys == status.Keys
  {
    map id | id in status :: if id in ids && CanChangeStatus(status[id], Failed) then Failed else status[id]
  }

  ghost predicate SessionCanChange(e: Engine, m: TicketId, next: Status)
    requires m in e.sessions
  {
    && CanChangeStatus(e.sessions[m].status, next)
    && forall id :: id in e.sessions[m].tickets ==> id in e.status && CanChangeStatus(e.status[id], next)
  }

  predicate AllAccepted(s: Session) {
    forall p :: p in s.answers ==> s.answers[p].accepted
  }

  // ---------- The handlers ----------

  /** Session and tickets move together. */
  ghost function Moved(e: Engine, m: TicketId, s: Status): Engine
    requires m in e.sessions
  {
    e.(status := SetAll(e.status, ToSet(e.sessions[m].tickets), s),
       sessions := e.sessions[m := e.sessions[m].(status := s)])
  }

  /** The session ends with a last status for all its tickets, and leaves the maps. */
  ghost function Dropped(e: Engine, m: TicketId, s: Status): Engine
    requires m in e.sessions
  {
    e.(status := SetAll(e.status, ToSet(e.sessions[m].tickets), s), sessions := e.sessions - {m},
       index := Released(e.index, e.sessions[m].answers.Keys, m))
  }

  ghost function AfterFail(e: Engine, m: TicketId): Engine {
    if m !in e.sessions || !SessionCanChange(e, m, Failed) then e else Dropped(e, m, Failed)
  }

  ghost function AfterTimeout(e: Engine, m: TicketId, awaited: Status): Engine {
    if m !in e.sessions || e.sessions[m].status != awaited || !SessionCanChange(e, m, TimedOut) then e
    else Dropped(e, m, TimedOut)
  }

  function PlaceJobs(jobs: Queue<Job>, m: TicketId, now: int): Queue<Job> {
    Insert(Insert(jobs, now + PLACE_TIMEOUT_MSEC, TimeoutPlace(m)), now + COMPLETION_DELAY_MSEC, Complete(m))
  }

  ghost function AfterPlace(e: Engine, m: TicketId, now: int): Engine {
    if m !in e.sessions || e.sessions[m].status.Placing? then e
    else if !SessionCanChange(e, m, Placing) then AfterFail(e, m)
    else Moved(e, m, Placing).(jobs := PlaceJobs(e.jobs, m, now))
  }

  ghost function Recorded(e: Engine, m: TicketId, p: PlayerKey, accept: bool): Engine
    requires m in e.sessions
  {
    e.(sessions := e.sessions[m := e.sessions[m].(answers := e.sessions[m].answers[p := Answer(true, accept)])],
       log := e.log + multiset{Entry(m, p, accept)})
  }

  /** Whether an answer of this player counts: his session still asks, and he has not answered yet. */
  ghost predicate Counts(e: Engine, p: PlayerKey) {
    && p in e.index && e.index[p] in e.sessions
    && !AllAccepted(e.sessions[e.index[p]])
    && e.sessions[e.index[p]].status.RequiresAcceptance?
    && p in e.sessions[e.index[p]].answers && !e.sessions[e.index[p]].answers[p].responded
  }

  ghost function AfterAnswer(e: Engine, p: PlayerKey, accept: bool, now: int): Engine {
    if !Counts(e, p) then e
    else
      var m := e.index[p];
      var e1 := Recorded(e, m, p, accept);
      if !accept then AfterFail(e1.(penalties := e.penalties + [(p, now + DODGE_PENALTY_MSEC)]), m)
      else if AllAccepted(e1.sessions[m]) then AfterPlace(e1, m, now)
      else e1
  }

  /** The placement's outcome arrives: completing needs a successful placement, a zone that registers and a
      session that may still complete. */
  ghost function AfterComplete(e: Engine, m: TicketId, success: bool, zoneOk: bool): Engine {
    if m !in e.sessions || !success || !zoneOk || !SessionCanChange(e, m, Completed) then AfterFail(e, m)
    else Dropped(e, m, Completed).(done := e.done[m := e.sessions[m]])
  }

  ghost function PlayersOf(info: map<TicketId, TicketInfo>, ids: seq<TicketId>): set<PlayerKey> {
    set id, p | id in ids && id in info && p in info[id].players :: p
  }

  /** No player is listed by two of the tickets. */
  ghost predicate Apart(info: map<TicketId, TicketInfo>, ids: set<TicketId>) {
    forall a, b, p :: a in ids && b in ids && a != b && a in info && b in info && p in info[a].players
                      ==> p !in info[b].players
  }

  ghost predicate Claimable(e: Engine, list: seq<TicketId>) {
    NoDuplicates(list) && Apart(e.info, ToSet(list)) && PlayersOf(e.info, list) !! e.index.Keys
  }

  ghost function OfParty(e: Engine, ids: set<TicketId>): set<TicketId> {
    set id | id in ids && id in e.info && IsParty(e.info[id])
  }

  /** Each ticket fails and leaves the registry of the manager it is handed back to; a ticket that may not
      fail any more is left alone. */
  ghost function NotifiedFailure(e: Engine, ids: set<TicketId>): Engine {
    var failing := set id | id in ids && id in e.status && CanChangeStatus(e.status[id], Failed);
    e.(status := FailEach(e.status, ids), party := e.party - OfParty(e, failing),
       solo := e.solo - (failing - OfParty(e, failing)))
  }

  ghost function Expired(e: Engine, ids: set<TicketId>): Engine {
    e.(party := e.party - OfParty(e, ids), solo := e.solo - (ids - OfParty(e, ids)))
  }

  function AutoAccepts(jobs: Queue<Job>, now: int, players: seq<PlayerKey>): Queue<Job> {
    if players == [] then jobs
    else Insert(AutoAccepts(jobs, now, players[..|players| - 1]), now + AUTO_ACCEPT_DELAY_MSEC * |players|,
                AutoAccept(players[|players| - 1]))
  }

  /** The players of the tickets in the order they are asked. */
  function Roster(info: map<TicketId, TicketInfo>, list: seq<TicketId>): seq<PlayerKey> {
    if list == [] then []
    else Roster(info, list[..|list| - 1])
         + (if list[|list| - 1] in info then Listed(info[list[|list| - 1]].players) else [])
  }

  /** The roster names exactly the tickets' players, and nobody twice if and only if no two tickets list the
      same player. */
  lemma {:induction false} RosterApart(info: map<TicketId, TicketInfo>, list: seq<TicketId>)
    requires NoDuplicates(list) && forall id :: id in list ==> id in info
    ensures ToSet(Roster(info, list)) == PlayersOf(info, list)
    ensures NoDuplicates(Roster(info, list)) <==> Apart(info, ToSet(list))
  {
    if list != [] {
      var front, last := list[..|list| - 1], list[|list| - 1];
      LastOfList(info, list);
      RosterApart(info, front);
      hide Apart, NoDuplicates, PlayersOf;
      ConcatToSet(Roster(info, front), Listed(info[last].players));
      ConcatNoDuplicates(Roster(info, front), Listed(info[last].players));
      ApartWithOne(info, front, last);
    }
  }

  lemma LastOfList(info: map<TicketId, TicketInfo>, list: seq<TicketId>)
    requires NoDuplicates(list) && list != [] && forall id :: id in list ==> id in info
    ensures var front, last := list[..|list| - 1], list[|list| - 1];
            && NoDuplicates(front) && last !in front && last in info
            && ToSet(list) == ToSet(front) + {last}
            && PlayersOf(info, list) == PlayersOf(info, front) + info[last].players
  {
    var front, last := list[..|list| - 1], list[|list| - 1];
    assert list == front + [last];
    assert last in list;
    forall p | p in info[last].players ensures p in PlayersOf(info, list) {
    }
    forall p ensures p in PlayersOf(info, list) <==> p in PlayersOf(info, front) || p in info[last].players {
      if p in PlayersOf(info, list) {
        var id :| id in list && id in info && p in info[id].players;
        assert id in front || id == last;
      }
    }
  }

  lemma ApartWithOne(info: map<TicketId, TicketInfo>, front: seq<TicketId>, last: TicketId)
    requires last !in front && last in info
    ensures Apart(info, ToSet(front) + {last}) <==> Apart(info, ToSet(front)) && PlayersOf(info, front) !! info[last].players
  {
    if Apart(info, ToSet(front) + {last}) {
      forall p | p in PlayersOf(info, front) ensures p !in info[last].players {
        var id :| id in front && id in info && p in info[id].players;
        assert id in ToSet(front) && id != last;
      }
    }
    if Apart(info, ToSet(front)) && PlayersOf(info, front) !! info[last].players {
      forall id, p | id in ToSet(front) && id in info && p in info[id].players ensures p !in info[last].players {
        assert p in PlayersOf(info, front);
      }
    }
  }

  ghost function Blank(info: map<TicketId, TicketInfo>, list: seq<TicketId>): (r: map<PlayerKey, Answer>)
    ensures r.Keys == PlayersOf(info, list)
  {
    map p | p in PlayersOf(info, list) :: Answer(false, false)
  }

  ghost function Opened(e: Engine, list: seq<TicketId>): Engine
    requires list != []
  {
    e.(sessions := e.sessions[list[0] := Session(list, Searching, Blank(e.info, list))],
       index := Claimed(e.index, PlayersOf(e.info, list), list[0]))
  }

  ghost function AcceptJobs(e: Engine, list: seq<TicketId>, now: int): Queue<Job>
    requires list != []
  {
    AutoAccepts(Insert(e.jobs, now + ACCEPT_TIMEOUT_MSEC, TimeoutAccept(list[0])), now, Roster(e.info, list))
  }

  /** A match becomes a session under the id of one of its tickets. If a player is in another session
      already, whatever stands under that id is erased and all the tickets fail. */
  ghost function AfterCreate(e: Engine, list: seq<TicketId>, now: int, worldFound: bool): Engine {
    if list == [] then e
    else
      var m := list[0];
      if !worldFound then NotifiedFailure(e, ToSet(list))
      else if m in e.sessions || !Claimable(e, list) then
        var e1 := if m in e.sessions
                  then e.(sessions := e.sessions - {m}, index := Released(e.index, e.sessions[m].answers.Keys, m))
                  else e;
        NotifiedFailure(e1, ToSet(list))
      else
        var e1 := Opened(e, list);
        if !SessionCanChange(e1, m, RequiresAcceptance) then AfterFail(e1, m)
        else Expired(Moved(e1, m, RequiresAcceptance), ToSet(list)).(jobs := AcceptJobs(e, list, now))
  }

  // ---------- Registering, stopping, matching ----------

  ghost function Registry(e: Engine, toParty: bool): set<TicketId> {
    if toParty then e.party else e.solo
  }

  ghost function WithRegistry(e: Engine, toParty: bool, ids: set<TicketId>): Engine {
    if toParty then e.(party := ids) else e.(solo := ids)
  }

  ghost predicate Taken(e: Engine, toParty: bool, players: set<PlayerKey>) {
    exists id :: id in Registry(e, toParty) && id in e.info && e.info[id].players * players != {}
  }

  /** A new ticket enters a manager's registry, or fails at once if one of its players is registered there. */
  ghost function AfterRegister(e: Engine, id: TicketId, info: TicketInfo, toParty: bool): Engine {
    if Taken(e, toParty, info.players) then Issued(e, id, info, toParty, Failed)
    else WithRegistry(Issued(e, id, info, toParty, Unset), toParty, Registry(e, toParty) + {id})
  }

  /** A ticket has been made for one of the managers. */
  ghost function Issued(e: Engine, id: TicketId, info: TicketInfo, toParty: bool, s: Status): Engine {
    e.(info := e.info[id := info], status := e.status[id := s], route := e.route[id := toParty])
  }

  /** The group takes the registered ticket, which becomes QUEUED unless it was cancelled meanwhile, or turns
      it away, and then it leaves the registry and fails. */
  ghost function AfterQueue(e: Engine, id: TicketId, toParty: bool, ok: bool): Engine
    requires id in e.status
  {
    if !ok then WithRegistry(e.(status := FailEach(e.status, {id})), toParty, Registry(e, toParty) - {id})
    else if CanChangeStatus(e.status[id], Queued) then e.(status := e.status[id := Queued])
    else e
  }

  ghost function Holders(e: Engine, toParty: bool, p: PlayerKey): set<TicketId> {
    set id | id in Registry(e, toParty) && id in e.info && p in e.info[id].players
  }

  ghost function AfterCancel(e: Engine, id: TicketId, toParty: bool): Engine
    requires id in e.status
  {
    if !CanChangeStatus(e.status[id], Cancelled) then e
    else WithRegistry(e.(status := e.status[id := Cancelled]), toParty, Registry(e, toParty) - {id})
  }

  /** A player asks a manager to stop: his registered ticket is cancelled if it still may be, which the solo
      manager may punish. It means to turn a request that comes during acceptance into a rejection. */
  ghost function AfterStop(e: Engine, p: PlayerKey, toParty: bool, dodge: bool, now: int): Engine {
    if Holders(e, toParty, p) == {} then e
    else
      var id := Pick(Holders(e, toParty, p));
      if id !in e.status then e
      else if !toParty && e.status[id].RequiresAcceptance? then AfterAnswer(e, p, false, now)
      else Punished(e, AfterCancel(e, id, toParty), p,
                    !toParty && dodge && CanChangeStatus(e.status[id], Cancelled), now)
  }

  ghost function Punished(e: Engine, e': Engine, p: PlayerKey, punish: bool, now: int): Engine {
    if punish then e'.(penalties := e.penalties + [(p, now + DODGE_PENALTY_MSEC)]) else e'
  }

  ghost function AfterMatch(e: Engine, list: seq<TicketId>): Engine {
    e.(status := SetAll(e.status, ToSet(list), Searching), flight := e.flight + {list})
  }

  /** What the queues guarantee of a match when it is committed. */
  ghost predicate Matchable(e: Engine, list: seq<TicketId>, fromParty: bool) {
    && list != [] && NoDuplicates(list)
    && forall id :: id in list ==>
         id in e.info && id in e.status && e.status[id].Queued? && id in Registry(e, fromParty)
  }

  ghost function AfterJob(e: Engine, now: int, zoneOk: bool): Engine
    requires e.jobs != []
  {
    var e1 := e.(jobs := e.jobs[1..]);
    match e.jobs[0].1
    case TimeoutAccept(m) => AfterTimeout(e1, m, RequiresAcceptance)
    case AutoAccept(p) => AfterAnswer(e1, p, true, now)
    case TimeoutPlace(m) => AfterTimeout(e1, m, Placing)
    case Complete(m) => AfterComplete(e1, m, true, zoneOk)
  }

  datatype Step =
    | Register(id: TicketId, info: TicketInfo, toParty: bool)
    | Enqueue(id: TicketId, toParty: bool, ok: bool)
    | Stop(player: PlayerKey, toParty: bool, dodge: bool, now: int)
    | Match(list: seq<TicketId>, fromParty: bool)
    | Create(list: seq<TicketId>, now: int, worldFound: bool)
    | Reply(player: PlayerKey, accept: bool, now: int)
    | Fail(session: TicketId)
    | Placed(session: TicketId, success: bool, zoneOk: bool)
    | RunJob(now: int, zoneOk: bool)

  /** Any new ticket may be registered with either manager, whichever it will be handed back to, but the solo
      manager turns away requests of several players before they get a ticket. A ticket is queued by the
      manager it was registered with. */
  ghost predicate Enabled(e: Engine, step: Step) {
    match step
    case Register(id, info, toParty) => id >= 0 && id !in e.info && (!toParty ==> |info.players| <= 1)
    case Enqueue(id, toParty, ok) =>
      && id in e.status && id in e.info && (e.status[id].Unset? || e.status[id].Cancelled?)
      && id in e.route && toParty == e.route[id] && (ok ==> e.info[id].players != {})
    case Stop(p, toParty, dodge, now) => true
    case Match(list, fromParty) => Matchable(e, list, fromParty)
    case Create(list, now, worldFound) => list in e.flight
    case Reply(p, accept, now) => true
    case Fail(m) => true
    case Placed(m, success, zoneOk) => true
    case RunJob(now, zoneOk) => e.jobs != [] && e.jobs[0].0 <= now
  }

  ghost function Apply(e: Engine, step: Step): Engine
    requires Enabled(e, step)
  {
    match step
    case Register(id, info, toParty) => AfterRegister(e, id, info, toParty)
    case Enqueue(id, toParty, ok) => AfterQueue(e, id, toParty, ok)
    case Stop(p, toParty, dodge, now) => AfterStop(e, p, toParty, dodge, now)
    case Match(list, fromParty) => AfterMatch(e, list)
    case Create(list, now, worldFound) => AfterCreate(e.(flight := e.flight - {list}), list, now, worldFound)
    case Reply(p, accept, now) => AfterAnswer(e, p, accept, now)
    case Fail(m) => AfterFail(e, m)
    case Placed(m, success, zoneOk) => AfterComplete(e, m, success, zoneOk)
    case RunJob(now, zoneOk) => AfterJob(e, now, zoneOk)
  }
}
