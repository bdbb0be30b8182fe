/** What every run of the session engine keeps. */
module SessionSafety {
  import opened Tickets
  import opened Ordered
  import opened TimedQueue
  import opened Registries
  import opened SessionProtocol

  // ---------- The invariant ----------

  /** Only tickets with players are ever queued. */
  ghost predicate TicketsSane(e: Engine) {
    && e.status.Keys == e.info.Keys == e.route.Keys
    && forall id :: id in e.status && (e.status[id].Queued? || e.status[id].Searching?) ==> e.info[id].players != {}
  }

  ghost predicate Registered(e: Engine, id: TicketId) {
    id in e.party || id in e.solo
  }

  /** A ticket is only ever registered with the manager it was given to. It is registered while it is new,
      QUEUED or SEARCHING; later on only a misrouted ticket can still be, and it is for sure if it has been in
      a session that did not fail. */
  ghost predicate OwnersSane(e: Engine) {
    && (forall id :: id in e.party ==> id in e.info && id in e.route && e.route[id])
    && (forall id :: id in e.solo ==> id in e.info && id in e.route && !e.route[id])
    && (forall id :: id in e.info && id in e.status ==> OwnedAs(e.status[id], Registered(e, id), Misrouted(e, id)))
  }

  ghost predicate OwnedAs(s: Status, registered: bool, misrouted: bool) {
    && (Stage(s) <= 2 ==> registered)
    && (registered && Stage(s) >= 3 ==> misrouted && !s.Cancelled?)
    && (misrouted && (Live(s) || s.Completed? || s.TimedOut?) ==> registered)
  }

  /** No player is listed by two tickets of one registry. */
  ghost predicate RegistriesSane(e: Engine) {
    Apart(e.info, e.party) && Apart(e.info, e.solo)
  }

  ghost predicate SomeFlight(flight: set<seq<TicketId>>, id: TicketId) {
    exists l :: l in flight && id in l
  }

  ghost predicate FlightsApart(flight: set<seq<TicketId>>) {
    forall l, k, id :: l in flight && k in flight && id in l && id in k ==> l == k
  }

  ghost predicate InOneRegistry(party: set<TicketId>, solo: set<TicketId>, l: seq<TicketId>) {
    (forall id :: id in l ==> id in party) || (forall id :: id in l ==> id in solo)
  }

  ghost predicate FlightGood(status: map<TicketId, Status>, l: seq<TicketId>) {
    l != [] && NoDuplicates(l) && forall id :: id in l ==> id in status && status[id].Searching?
  }

  /** Matches on their way are disjoint lists of SEARCHING tickets from one registry, and every SEARCHING
      ticket is in one. */
  ghost predicate FlightSane(e: Engine) {
    && (forall l :: l in e.flight ==> FlightGood(e.status, l) && InOneRegistry(e.party, e.solo, l))
    && FlightsApart(e.flight)
    && (forall id :: id in e.status && e.status[id].Searching? ==> SomeFlight(e.flight, id))
  }

  predicate Live(s: Status) {
    s.RequiresAcceptance? || s.Placing?
  }

  /** A live session and all its tickets share one status. While it awaits acceptance nobody has rejected
      and somebody has not accepted; it is PLACING exactly when everybody has accepted. */
  ghost predicate SessionSane(info: map<TicketId, TicketInfo>, status: map<TicketId, Status>, m: TicketId, s: Session) {
    && m in s.tickets && NoDuplicates(s.tickets) && Live(s.status)
    && (forall id :: id in s.tickets ==> id in info && id in status && status[id] == s.status)
    && s.answers.Keys == PlayersOf(info, s.tickets)
    && (forall p :: p in s.answers ==> (s.answers[p].responded <==> s.answers[p].accepted))
    && (s.status.Placing? <==> AllAccepted(s))
  }

  ghost predicate SomeSession(sessions: map<TicketId, Session>, id: TicketId) {
    exists m :: m in sessions && id in sessions[m].tickets
  }

  ghost predicate SessionsApart(sessions: map<TicketId, Session>) {
    forall a, b, id ::
      a in sessions && b in sessions && id in sessions[a].tickets && id in sessions[b].tickets ==> a == b
  }

  /** Live sessions are disjoint, and every ticket with a live status is in one. */
  ghost predicate SessionsSane(e: Engine) {
    && (forall m :: m in e.sessions ==> SessionSane(e.info, e.status, m, e.sessions[m]))
    && SessionsApart(e.sessions)
    && (forall id :: id in e.status && Live(e.status[id]) ==> SomeSession(e.sessions, id))
  }

  ghost function Rosters(sessions: map<TicketId, Session>): map<int, set<PlayerKey>> {
    map m | m in sessions :: sessions[m].answers.Keys
  }

  /** The player index is exactly the inverse of the live sessions' players. */
  ghost predicate IndexSane(e: Engine) {
    Inverse(e.index, Rosters(e.sessions))
  }

  ghost predicate Pending(jobs: Queue<Job>, j: Job) {
    exists i :: 0 <= i < |jobs| && jobs[i].1 == j
  }

  /** The jobs that will end a session: the acceptance timeout while it asks, and both the completion and
      the placement timeout while it is placed. One job may be excepted. */
  ghost predicate JobsFor(jobs: Queue<Job>, m: TicketId, s: Status, except: set<Job>) {
    && (s.RequiresAcceptance? ==> TimeoutAccept(m) in except || Pending(jobs, TimeoutAccept(m)))
    && (s.Placing? ==> TimeoutPlace(m) in except || Pending(jobs, TimeoutPlace(m)))
    && (s.Placing? ==> Complete(m) in except || Pending(jobs, Complete(m)))
  }

  ghost predicate JobsSane(e: Engine, except: set<Job>) {
    forall m :: m in e.sessions ==> JobsFor(e.jobs, m, e.sessions[m].status, except)
  }

  /** How often a player's answer to a session was recorded. */
  ghost function Times(log: multiset<Entry>, m: TicketId, p: PlayerKey): nat {
    log[Entry(m, p, true)] + log[Entry(m, p, false)]
  }

  /** The answers of live sessions are exactly what was recorded, each once. */
  ghost predicate LogSane(e: Engine) {
    && (forall m, p :: m in e.sessions && p in e.sessions[m].answers ==>
          Answered(e.log, m, p, e.sessions[m].answers[p]))
    && (forall x :: x in e.log ==> x.session in e.status && Stage(e.status[x.session]) >= 3)
  }

  ghost predicate Answered(log: multiset<Entry>, m: TicketId, p: PlayerKey, a: Answer) {
    Times(log, m, p) == (if a.responded then 1 else 0) && (a.responded ==> log[Entry(m, p, a.accepted)] == 1)
  }

  /** Sessions complete only with everybody's one and accepting answer, and their tickets stay COMPLETED. */
  ghost predicate DoneSane(e: Engine) {
    forall m :: m in e.done ==> ClosedWell(e.status, e.log, m, e.done[m])
  }

  ghost predicate ClosedWell(status: map<TicketId, Status>, log: multiset<Entry>, m: TicketId, s: Session) {
    && m in s.tickets && AllAccepted(s)
    && (forall id :: id in s.tickets ==> id in status && status[id].Completed?)
    && (forall p :: p in s.answers ==> Answered(log, m, p, Answer(true, true)))
  }

  ghost predicate CompletedSane(e: Engine) {
    forall id :: id in e.status && e.status[id].Completed? ==> SomeSession(e.done, id)
  }

  ghost predicate EarlySane(e: Engine) {
    TicketsSane(e) && OwnersSane(e) && RegistriesSane(e) && FlightSane(e)
  }

  ghost predicate LateSane(e: Engine) {
    SessionsSane(e) && IndexSane(e) && LogSane(e) && DoneSane(e) && CompletedSane(e)
  }

  ghost predicate EngineSane(e: Engine) {
    EarlySane(e) && LateSane(e) && JobsSane(e, {})
  }

  ghost predicate Initial(e: Engine) {
    e == Engine(map[], map[], {}, {}, {}, map[], map[], [], multiset{}, [], map[], map[])
  }

  // ---------- What steps before the session leave alone ----------

  ghost predicate KeepsInfo(e: Engine, e': Engine) {
    && (forall id :: id in e.info ==> id in e'.info && e'.info[id] == e.info[id])
    && (forall id :: id in e.status ==> id in e'.status)
  }

  /** No ticket of a session changes status, and no other ticket gets one of theirs. */
  ghost predicate KeepsLate(e: Engine, e': Engine) {
    && (forall id :: id in e.status && Stage(e.status[id]) >= 3 ==> id in e'.status && e'.status[id] == e.status[id])
    && (forall id :: id in e'.status && Live(e'.status[id]) ==> id in e.status && Live(e.status[id]))
    && (forall id :: id in e'.status && e'.status[id].Completed? ==> id in e.status && e.status[id].Completed?)
  }

  ghost predicate KeepsCompleted(e: Engine, e': Engine) {
    && (forall id :: id in e.status && e.status[id].Completed? ==> id in e'.status && e'.status[id].Completed?)
    && (forall id :: id in e'.status && e'.status[id].Completed? ==> id in e.status && e.status[id].Completed?)
  }

  lemma PlayersKept(info: map<TicketId, TicketInfo>, info': map<TicketId, TicketInfo>, ids: seq<TicketId>)
    requires forall id :: id in ids ==> id in info && id in info' && info'[id] == info[id]
    ensures PlayersOf(info', ids) == PlayersOf(info, ids)
  {
  }

  lemma SessionKept(info: map<TicketId, TicketInfo>, status: map<TicketId, Status>,
                    info': map<TicketId, TicketInfo>, status': map<TicketId, Status>, m: TicketId, s: Session)
    requires SessionSane(info, status, m, s)
    requires forall id :: id in s.tickets ==> id in info' && info'[id] == info[id]
    requires forall id :: id in s.tickets ==> id in status' && status'[id] == status[id]
    ensures SessionSane(info', status', m, s)
  {
    PlayersKept(info, info', s.tickets);
  }

  lemma SessionTickets(info: map<TicketId, TicketInfo>, status: map<TicketId, Status>, m: TicketId, s: Session)
    requires SessionSane(info, status, m, s)
    ensures m in s.tickets && Live(s.status)
    ensures forall id :: id in s.tickets ==> id in info && id in status && status[id] == s.status
  {
  }

  lemma SessionsKept(e: Engine, e': Engine)
    requires SessionsSane(e) && e'.sessions == e.sessions && KeepsInfo(e, e') && KeepsLate(e, e')
    ensures SessionsSane(e')
  {
    hide SessionSane;
    forall m | m in e'.sessions ensures SessionSane(e'.info, e'.status, m, e'.sessions[m]) {
      SessionTickets(e.info, e.status, m, e.sessions[m]);
      SessionKept(e.info, e.status, e'.info, e'.status, m, e.sessions[m]);
    }
  }

  lemma LogKept(e: Engine, e': Engine)
    requires LogSane(e) && KeepsLate(e, e') && e'.sessions == e.sessions && e'.log == e.log
    ensures LogSane(e')
  {
    hide Answered;
  }

  lemma DoneKept(e: Engine, e': Engine)
    requires DoneSane(e) && CompletedSane(e) && KeepsCompleted(e, e') && e'.log == e.log && e'.done == e.done
    ensures DoneSane(e') && CompletedSane(e')
  {
    hide Answered;
    forall m | m in e'.done ensures ClosedWell(e'.status, e'.log, m, e'.done[m]) {
      assert ClosedWell(e.status, e.log, m, e.done[m]);
    }
  }

  lemma LateKept(e: Engine, e': Engine)
    requires LateSane(e) && KeepsInfo(e, e') && KeepsLate(e, e')
    requires e'.sessions == e.sessions && e'.index == e.index && e'.log == e.log && e'.done == e.done
    ensures LateSane(e')
  {
    hide SessionsSane, LogSane, DoneSane, CompletedSane, KeepsLate, KeepsCompleted;
    SessionsKept(e, e');
    LogKept(e, e');
    LateIsCompleted(e, e');
    DoneKept(e, e');
  }

  lemma LateIsCompleted(e: Engine, e': Engine)
    requires KeepsLate(e, e')
    ensures KeepsCompleted(e, e')
  {
  }

  /** No SEARCHING ticket changes status or leaves its registry, and no other becomes SEARCHING. */
  ghost predicate KeepsSearching(e: Engine, e': Engine) {
    && (forall id :: id in e.status && e.status[id].Searching? ==>
          && id in e'.status && e'.status[id].Searching?
          && (id in e.party ==> id in e'.party) && (id in e.solo ==> id in e'.solo))
    && (forall id :: id in e'.status && e'.status[id].Searching? ==> id in e.status && e.status[id].Searching?)
  }

  lemma FlightListKept(e: Engine, e': Engine, l: seq<TicketId>)
    requires KeepsSearching(e, e') && FlightGood(e.status, l) && InOneRegistry(e.party, e.solo, l)
    ensures FlightGood(e'.status, l) && InOneRegistry(e'.party, e'.solo, l)
  {
    if forall id :: id in l ==> id in e.party {
      assert forall id :: id in l ==> id in e'.party;
    } else {
      assert forall id :: id in l ==> id in e'.solo;
    }
  }

  lemma FlightKept(e: Engine, e': Engine)
    requires FlightSane(e) && KeepsSearching(e, e') && e'.flight == e.flight
    ensures FlightSane(e')
  {
    hide FlightGood, InOneRegistry;
    forall l | l in e'.flight ensures FlightGood(e'.status, l) && InOneRegistry(e'.party, e'.solo, l) {
      FlightListKept(e, e', l);
    }
  }

  /** Tickets only leave registries. */
  lemma RegistriesShrink(e: Engine, e': Engine)
    requires RegistriesSane(e) && e'.info == e.info && e'.party <= e.party && e'.solo <= e.solo
    ensures RegistriesSane(e')
  {
  }

  // ---------- Registering, queuing, cancelling, matching ----------

  /** A status that is no stage of a match or a session. */
  predicate Aside(s: Status) {
    Stage(s) <= 1 || (Terminal(s) && !s.Completed?)
  }

  /** One ticket, new or aside, changes to a status aside; its registration follows. */
  ghost predicate OneTicketMoves(e: Engine, e': Engine, id: TicketId) {
    && e.status.Keys == e.info.Keys == e.route.Keys && (id in e.status ==> Aside(e.status[id]))
    && id in e'.info && id in e'.status && Aside(e'.status[id])
    && e'.info.Keys == e'.route.Keys == e.info.Keys + {id} && e'.status == e.status[id := e'.status[id]]
    && (forall x :: x in e.info ==> e'.info[x] == e.info[x] && e'.route[x] == e.route[x])
    && (forall x :: x != id ==> (x in e'.party <==> x in e.party) && (x in e'.solo <==> x in e.solo))
    && (id in e.status && Terminal(e.status[id]) ==> e'.status[id] == e.status[id])
  }

  lemma OneTicketKeeps(e: Engine, e': Engine, id: TicketId)
    requires OneTicketMoves(e, e', id)
    ensures KeepsInfo(e, e') && KeepsLate(e, e') && KeepsSearching(e, e')
  {
  }

  /** The moved ticket is registered as its status asks. */
  ghost predicate OneTicketOwned(e': Engine, id: TicketId)
    requires id in e'.info && id in e'.status
  {
    && (e'.status[id].Queued? ==> e'.info[id].players != {})
    && (id in e'.party ==> id in e'.route && e'.route[id])
    && (id in e'.solo ==> id in e'.route && !e'.route[id])
    && OwnedAs(e'.status[id], Registered(e', id), Misrouted(e', id))
  }

  lemma OneTicketOwners(e: Engine, e': Engine, id: TicketId)
    requires TicketsSane(e) && OwnersSane(e) && OneTicketMoves(e, e', id) && OneTicketOwned(e', id)
    ensures TicketsSane(e') && OwnersSane(e')
  {
    hide IsParty;
  }

  lemma OneTicketSane(e: Engine, e': Engine, id: TicketId)
    requires EarlySane(e) && LateSane(e) && OneTicketMoves(e, e', id) && OneTicketOwned(e', id)
    requires RegistriesSane(e')
    requires e'.flight == e.flight && e'.sessions == e.sessions && e'.index == e.index
    requires e'.log == e.log && e'.done == e.done
    ensures EarlySane(e') && LateSane(e')
  {
    hide OneTicketMoves, OneTicketOwned, LateSane, TicketsSane, OwnersSane, RegistriesSane,
         FlightSane, KeepsInfo, KeepsLate, KeepsSearching;
    OneTicketOwners(e, e', id);
    OneTicketKeeps(e, e', id);
    FlightKept(e, e');
    LateKept(e, e');
  }

  lemma RegisteredSane(e: Engine, id: TicketId, info: TicketInfo, toParty: bool)
    requires EarlySane(e) && LateSane(e) && id !in e.info
    ensures EarlySane(AfterRegister(e, id, info, toParty)) && LateSane(AfterRegister(e, id, info, toParty))
  {
    hide LateSane, TicketsSane, OwnersSane, FlightSane, RegistriesSane, OneTicketMoves, OneTicketOwned, AfterRegister;
    var e' := AfterRegister(e, id, info, toParty);
    RegisteredApart(e, id, info, toParty);
    RegisteredMoves(e, id, info, toParty);
    OneTicketSane(e, e', id);
  }

  lemma RegisteredMoves(e: Engine, id: TicketId, info: TicketInfo, toParty: bool)
    requires TicketsSane(e) && OwnersSane(e) && id !in e.info
    ensures var e' := AfterRegister(e, id, info, toParty);
            && OneTicketMoves(e, e', id) && OneTicketOwned(e', id)
            && e'.flight == e.flight && e'.sessions == e.sessions && e'.index == e.index
            && e'.log == e.log && e'.done == e.done && e'.jobs == e.jobs
  {
    hide Taken, IsParty, OneTicketOwned, OneTicketMoves, OwnersSane, TicketsSane, AfterRegister;
    RegisterMeans(e, id, info, toParty);
    RegisteredOwned(e, id, info, toParty);
    NewTicketMoves(e, AfterRegister(e, id, info, toParty), id, info, toParty);
  }

  lemma RegisterMeans(e: Engine, id: TicketId, info: TicketInfo, toParty: bool)
    ensures var e', taken := AfterRegister(e, id, info, toParty), Taken(e, toParty, info.players);
            e' == e.(info := e.info[id := info], status := e.status[id := if taken then Failed else Unset],
                     route := e.route[id := toParty],
                     party := if !taken && toParty then e.party + {id} else e.party,
                     solo := if !taken && !toParty then e.solo + {id} else e.solo)
  {
    hide Taken;
  }

  lemma NewTicketMoves(e: Engine, e': Engine, id: TicketId, info: TicketInfo, toParty: bool)
    requires TicketsSane(e) && id !in e.info
    requires e'.info == e.info[id := info] && e'.route == e.route[id := toParty]
    requires e'.status == e.status[id := Unset] || e'.status == e.status[id := Failed]
    requires e.party <= e'.party <= e.party + {id} && e.solo <= e'.solo <= e.solo + {id}
    ensures OneTicketMoves(e, e', id)
  {
  }

  lemma RegisteredOwned(e: Engine, id: TicketId, info: TicketInfo, toParty: bool)
    requires TicketsSane(e) && OwnersSane(e) && id !in e.info
    ensures var e' := AfterRegister(e, id, info, toParty);
            id in e'.info && id in e'.status && OneTicketOwned(e', id)
  {
    hide Taken, IsParty, AfterRegister;
    RegisterMeans(e, id, info, toParty);
  }

  lemma RegisteredApart(e: Engine, id: TicketId, info: TicketInfo, toParty: bool)
    requires TicketsSane(e) && OwnersSane(e) && RegistriesSane(e) && id !in e.info
    ensures RegistriesSane(AfterRegister(e, id, info, toParty))
  {
    hide IsParty;
    if !Taken(e, toParty, info.players) {
      forall x | x in Registry(e, toParty) && x in e.info ensures e.info[x].players * info.players == {} {
      }
      ApartOneMore(e.info, Registry(e, toParty), id, info);
    }
  }

  lemma ApartOneMore(infos: map<TicketId, TicketInfo>, ids: set<TicketId>, id: TicketId, info: TicketInfo)
    requires Apart(infos, ids) && id !in infos && id !in ids
    requires forall x :: x in ids && x in infos ==> infos[x].players * info.players == {}
    ensures Apart(infos[id := info], ids + {id})
  {
    forall x, p | x in ids && x in infos && p in infos[x].players ensures p !in info.players {
      assert p in infos[x].players * info.players <==> p in info.players;
    }
  }

  lemma QueuedSane(e: Engine, id: TicketId, ok: bool)
    requires EarlySane(e) && LateSane(e) && id in e.route && id in e.status
    requires e.status[id].Unset? || e.status[id].Cancelled?
    requires ok ==> e.info[id].players != {}
    ensures var e' := AfterQueue(e, id, e.route[id], ok); EarlySane(e') && LateSane(e')
  {
    hide LateSane, TicketsSane, OwnersSane, FlightSane, RegistriesSane, OneTicketMoves, OneTicketOwned, AfterQueue;
    var e' := AfterQueue(e, id, e.route[id], ok);
    QueuedMoves(e, id, ok);
    RegistriesShrink(e, e');
    OneTicketSane(e, e', id);
  }

  lemma QueuedMoves(e: Engine, id: TicketId, ok: bool)
    requires TicketsSane(e) && OwnersSane(e) && id in e.route
    requires e.status[id].Unset? || e.status[id].Cancelled?
    requires ok ==> e.info[id].players != {}
    ensures var e' := AfterQueue(e, id, e.route[id], ok);
            && OneTicketMoves(e, e', id) && OneTicketOwned(e', id)
            && e'.info == e.info && e'.party <= e.party && e'.solo <= e.solo
            && e'.flight == e.flight && e'.sessions == e.sessions && e'.index == e.index
            && e'.log == e.log && e'.done == e.done && e'.jobs == e.jobs
  {
    hide IsParty;
    if ok {
      assert e.status == e.status[id := e.status[id]];
    } else {
      TurnedAwayMoves(e, id);
    }
  }

  lemma TurnedAwayMoves(e: Engine, id: TicketId)
    requires TicketsSane(e) && OwnersSane(e) && id in e.route
    requires e.status[id].Unset? || e.status[id].Cancelled?
    ensures var e' := AfterQueue(e, id, e.route[id], false);
            && OneTicketMoves(e, e', id) && OneTicketOwned(e', id)
            && e'.info == e.info && e'.party <= e.party && e'.solo <= e.solo
  {
    hide IsParty, OneTicketOwned, OwnersSane;
    assert FailEach(e.status, {id}) == e.status[id := FailEach(e.status, {id})[id]];
    TurnedAwayOwned(e, id);
  }

  lemma TurnedAwayOwned(e: Engine, id: TicketId)
    requires TicketsSane(e) && OwnersSane(e) && id in e.route
    requires e.status[id].Unset? || e.status[id].Cancelled?
    ensures OneTicketOwned(AfterQueue(e, id, e.route[id], false), id)
  {
    hide IsParty;
  }

  lemma CancelledSane(e: Engine, id: TicketId)
    requires EarlySane(e) && LateSane(e) && id in e.route && id in e.status
    ensures var e' := AfterCancel(e, id, e.route[id]); EarlySane(e') && LateSane(e')
  {
    if CanChangeStatus(e.status[id], Cancelled) {
      hide LateSane, TicketsSane, OwnersSane, FlightSane, RegistriesSane, OneTicketMoves, OneTicketOwned, AfterCancel;
      var e' := AfterCancel(e, id, e.route[id]);
      CancelledMoves(e, id);
      RegistriesShrink(e, e');
      OneTicketSane(e, e', id);
    }
  }

  lemma CancelledMoves(e: Engine, id: TicketId)
    requires TicketsSane(e) && OwnersSane(e) && id in e.route
    requires CanChangeStatus(e.status[id], Cancelled)
    ensures var e' := AfterCancel(e, id, e.route[id]);
            && OneTicketMoves(e, e', id) && OneTicketOwned(e', id)
            && e'.info == e.info && e'.party <= e.party && e'.solo <= e.solo
            && e'.flight == e.flight && e'.sessions == e.sessions && e'.index == e.index
            && e'.log == e.log && e'.done == e.done && e'.jobs == e.jobs
  {
    hide IsParty;
  }

  lemma MatchedSane(e: Engine, list: seq<TicketId>, fromParty: bool)
    requires EarlySane(e) && LateSane(e) && Matchable(e, list, fromParty)
    ensures EarlySane(AfterMatch(e, list)) && LateSane(AfterMatch(e, list))
  {
    hide LateSane, IsParty, FlightSane, RegistriesSane;
    var e' := AfterMatch(e, list);
    RegistriesShrink(e, e');
    MatchedFlight(e, list, fromParty);
    LateKept(e, e');
  }

  lemma MatchedFlight(e: Engine, list: seq<TicketId>, fromParty: bool)
    requires FlightSane(e) && Matchable(e, list, fromParty)
    ensures FlightSane(AfterMatch(e, list))
  {
    hide NoDuplicates;
    var e' := AfterMatch(e, list);
    forall l | l in e.flight ensures FlightGood(e'.status, l) && InOneRegistry(e'.party, e'.solo, l) {
    }
    forall id | id in e'.status && e'.status[id].Searching? ensures SomeFlight(e'.flight, id) {
      if id in list {
        assert list in e'.flight;
      } else {
        var l :| l in e.flight && id in l;
        assert l in e'.flight;
      }
    }
  }

  /** Tickets matched together come from one registry, so they share no player. */
  lemma FlightApart(e: Engine, list: seq<TicketId>)
    requires EarlySane(e) && list in e.flight
    ensures NoDuplicates(list) && Apart(e.info, ToSet(list))
  {
    assert FlightGood(e.status, list) && InOneRegistry(e.party, e.solo, list);
  }

  lemma FlightFailedSane(e: Engine, list: seq<TicketId>)
    requires EarlySane(e) && LateSane(e) && list in e.flight
    ensures var e' := NotifiedFailure(e.(flight := e.flight - {list}), ToSet(list));
            EarlySane(e') && LateSane(e')
  {
    hide LateSane, IsParty, FlightSane, RegistriesSane, TicketsSane, OwnersSane, FailEach;
    var e' := NotifiedFailure(e.(flight := e.flight - {list}), ToSet(list));
    FlightList(e, list);
    FlightFailedOwners(e, list);
    RegistriesShrink(e, e');
    FlightLanded(e, e', list);
    LateKept(e, e');
  }

  lemma FlightFailedOwners(e: Engine, list: seq<TicketId>)
    requires TicketsSane(e) && OwnersSane(e)
    requires forall id :: id in list ==> id in e.status && e.status[id].Searching?
    ensures var e' := NotifiedFailure(e.(flight := e.flight - {list}), ToSet(list));
            && TicketsSane(e') && OwnersSane(e')
            && (forall id :: id in e.status ==>
                  id in e'.status && e'.status[id] == if id in list then Failed else e.status[id])
            && e'.status.Keys == e.status.Keys
            && (forall id :: id !in list ==> (id in e.party ==> id in e'.party) && (id in e.solo ==> id in e'.solo))
  {
    hide IsParty;
  }

  lemma FlightList(e: Engine, list: seq<TicketId>)
    requires FlightSane(e) && list in e.flight
    ensures forall id :: id in list ==> id in e.status && e.status[id].Searching?
    ensures list != [] && NoDuplicates(list)
  {
    assert FlightGood(e.status, list);
  }

  /** A match's tickets leave SEARCHING together, and nobody else does. */
  lemma FlightLanded(e: Engine, e': Engine, list: seq<TicketId>)
    requires FlightSane(e) && list in e.flight && e'.flight == e.flight - {list}
    requires forall id :: id in e.status && e.status[id].Searching? && id !in list ==>
               && id in e'.status && e'.status[id].Searching?
               && (id in e.party ==> id in e'.party) && (id in e.solo ==> id in e'.solo)
    requires forall id :: id in e'.status && e'.status[id].Searching? ==>
               id in e.status && e.status[id].Searching? && id !in list
    ensures FlightSane(e')
  {
    hide NoDuplicates;
    forall l | l in e'.flight ensures FlightGood(e'.status, l) && InOneRegistry(e'.party, e'.solo, l) {
      assert forall id :: id in l ==> id !in list;
      FlightListLanded(e, e', l);
    }
    forall id | id in e'.status && e'.status[id].Searching? ensures SomeFlight(e'.flight, id) {
      var l :| l in e.flight && id in l;
      assert l in e'.flight;
    }
  }

  lemma FlightListLanded(e: Engine, e': Engine, l: seq<TicketId>)
    requires FlightGood(e.status, l) && InOneRegistry(e.party, e.solo, l)
    requires forall id :: id in l ==>
               && id in e'.status && e'.status[id].Searching?
               && (id in e.party ==> id in e'.party) && (id in e.solo ==> id in e'.solo)
    ensures FlightGood(e'.status, l) && InOneRegistry(e'.party, e'.solo, l)
  {
    if forall id :: id in l ==> id in e.party {
      assert forall id :: id in l ==> id in e'.party;
    } else {
      assert forall id :: id in l ==> id in e'.solo;
    }
  }
}
