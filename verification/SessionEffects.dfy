/** What each handler of the session engine brings about, component by component: which tickets take which
    status, who leaves which map, which jobs are booked for when, and who is punished until when. */
module SessionEffects {
  import opened Tickets
  import opened Ordered
  import opened TimedQueue
  import opened Registries
  import opened SessionProtocol
  import opened SessionSafety
  import opened SessionLife
  import opened SessionRuns
  import opened SessionTheorems
  import opened SessionJobs

  /** Exactly these tickets have the given status now, and no other status has changed. */
  ghost predicate StatusesMove(e: Engine, e': Engine, ids: set<TicketId>, s: Status) {
    && e'.status.Keys == e.status.Keys && (forall id :: id in ids ==> id in e.status)
    && forall id :: id in e.status ==> e'.status[id] == if id in ids then s else e.status[id]
  }

  // ---------- Before the match ----------

  /** A registered ticket of the manager that lists one of the players. */
  ghost predicate SomebodyTaken(e: Engine, toParty: bool, players: set<PlayerKey>) {
    exists x, p :: x in (if toParty then e.party else e.solo) && x in e.info
                   && p in e.info[x].players && p in players
  }

  /** A new ticket is registered with the manager it was given to, unless that has one of its players already; then
      the ticket is FAILED and registered nowhere. */
  lemma RegisterBrings(e: Engine, id: TicketId, info: TicketInfo, toParty: bool)
    ensures var e', taken := AfterRegister(e, id, info, toParty), SomebodyTaken(e, toParty, info.players);
            e' == e.(info := e.info[id := info], status := e.status[id := if taken then Failed else Unset],
                     route := e.route[id := toParty],
                     party := if !taken && toParty then e.party + {id} else e.party,
                     solo := if !taken && !toParty then e.solo + {id} else e.solo)
  {
    RegisterMeans(e, id, info, toParty);
    hide AfterRegister;
    assert Taken(e, toParty, info.players) <==> SomebodyTaken(e, toParty, info.players) by {
      TakenSomebody(e, toParty, info.players);
    }
  }

  lemma TakenSomebody(e: Engine, toParty: bool, players: set<PlayerKey>)
    ensures Taken(e, toParty, players) <==> SomebodyTaken(e, toParty, players)
  {
    if Taken(e, toParty, players) {
      var x :| x in Registry(e, toParty) && x in e.info && e.info[x].players * players != {};
      var p := Pick(e.info[x].players * players);
      assert p in e.info[x].players && p in players;
    }
    if SomebodyTaken(e, toParty, players) {
      var x, p :| x in (if toParty then e.party else e.solo) && x in e.info && p in e.info[x].players && p in players;
      assert p in e.info[x].players * players;
    }
  }

  /** A new ticket that the group takes is QUEUED, and a cancelled one stays so; a ticket the group turns away is out
      of its registry and FAILED, unless it was cancelled meanwhile. */
  lemma QueueBrings(e: Engine, id: TicketId, toParty: bool, ok: bool)
    requires id in e.status && (e.status[id].Unset? || e.status[id].Cancelled?)
    ensures var e' := AfterQueue(e, id, toParty, ok);
            && StatusesMove(e, e', {id}, if e.status[id].Cancelled? then Cancelled else if ok then Queued else Failed)
            && e' == e.(status := e'.status,
                        party := if !ok && toParty then e.party - {id} else e.party,
                        solo := if !ok && !toParty then e.solo - {id} else e.solo)
  {
  }

  /** The tickets of a match are SEARCHING and on their way. */
  lemma MatchBrings(e: Engine, list: seq<TicketId>)
    requires forall id :: id in list ==> id in e.status
    ensures var e' := AfterMatch(e, list);
            && StatusesMove(e, e', ToSet(list), Searching)
            && e' == e.(status := e'.status, flight := e.flight + {list})
  {
  }

  // ---------- Stopping ----------

  /** A stop request cancels the player's registered ticket if that is new or QUEUED: the ticket is CANCELLED and in
      no registry, nobody else's status or registration changes, and the solo manager, if asked to, punishes the
      player for fifteen seconds. */
  lemma StopCancels(e: Engine, p: PlayerKey, toParty: bool, dodge: bool, now: int, id: TicketId)
    requires Core(e) && id in (if toParty then e.party else e.solo) && id in e.info && p in e.info[id].players
    requires id in e.status && (e.status[id].Unset? || e.status[id].Queued?)
    ensures var e' := AfterStop(e, p, toParty, dodge, now);
            && StatusesMove(e, e', {id}, Cancelled)
            && id !in e'.party && id !in e'.solo
            && e' == e.(status := e'.status, party := e.party - {id}, solo := e.solo - {id},
                        penalties := e.penalties + if !toParty && dodge then [(p, now + 15000)] else [])
  {
    hide Core, Holders, AfterAnswer;
    OnlyRegistered(e, p, toParty, id);
    assert e.party - {id} == e.party || toParty;
    assert e.solo - {id} == e.solo || !toParty;
    assert e.penalties + [] == e.penalties;
  }

  /** A player is in one registered ticket of a manager at most. */
  lemma OnlyRegistered(e: Engine, p: PlayerKey, toParty: bool, id: TicketId)
    requires Core(e) && id in (if toParty then e.party else e.solo) && id in e.info && p in e.info[id].players
    ensures Holders(e, toParty, p) == {id} && id in e.route && e.route[id] == toParty
    ensures (toParty ==> id !in e.solo) && (!toParty ==> id !in e.party)
  {
    hide LateSane, FlightSane, TicketsSane;
    assert id in Holders(e, toParty, p);
    forall x | x in Holders(e, toParty, p) ensures x == id {
    }
  }

  /** A registered ticket of the player with one of the statuses. */
  ghost predicate HasRegistered(e: Engine, p: PlayerKey, toParty: bool, among: set<Status>) {
    exists id :: id in (if toParty then e.party else e.solo) && id in e.info && id in e.status
                 && p in e.info[id].players && e.status[id] in among
  }

  /** With no registered ticket of the player that is new or QUEUED a stop changes nothing, except that the solo
      manager takes it for a rejection while a ticket of his is asking. */
  lemma StopOtherwise(e: Engine, p: PlayerKey, toParty: bool, dodge: bool, now: int)
    requires Core(e) && !HasRegistered(e, p, toParty, {Unset, Queued})
    ensures AfterStop(e, p, toParty, dodge, now)
         == if !toParty && HasRegistered(e, p, false, {RequiresAcceptance}) then AfterAnswer(e, p, false, now) else e
  {
    hide LateSane, AfterAnswer, FlightSane, TicketsSane;
    if Holders(e, toParty, p) != {} {
      var id := Pick(Holders(e, toParty, p));
      OneHolder(e, p, toParty, id);
      assert e.status[id] !in {Unset, Queued};
      assert HasRegistered(e, p, toParty, {RequiresAcceptance}) <==> e.status[id] in {RequiresAcceptance};
    }
    if HasRegistered(e, p, toParty, {RequiresAcceptance}) {
      var x :| x in (if toParty then e.party else e.solo) && x in e.info && x in e.status
               && p in e.info[x].players && e.status[x] in {RequiresAcceptance};
      assert x in Holders(e, toParty, p);
    }
  }

  lemma OneHolder(e: Engine, p: PlayerKey, toParty: bool, id: TicketId)
    requires Core(e) && id in Holders(e, toParty, p)
    ensures id in e.info && id in e.status && id in (if toParty then e.party else e.solo) && p in e.info[id].players
    ensures forall x :: x in (if toParty then e.party else e.solo) && x in e.info && p in e.info[x].players ==> x == id
  {
    HolderFacts(e, toParty, p, id);
    OnlyRegistered(e, p, toParty, id);
    forall x | x in (if toParty then e.party else e.solo) && x in e.info && p in e.info[x].players ensures x == id {
      assert x in Holders(e, toParty, p);
    }
  }

  // ---------- The end of a session ----------

  /** A session that ends takes all its tickets to its last status, and leaves the maps with its players'
      entries. */
  lemma DroppedBrings(e: Engine, m: TicketId, s: Status)
    requires Core(e) && m in e.sessions
    ensures var e' := Dropped(e, m, s);
            && StatusesMove(e, e', ToSet(e.sessions[m].tickets), s)
            && e'.sessions == e.sessions - {m}
            && (forall p :: p in e'.index <==> p in e.index && e.index[p] != m)
            && (forall p :: p in e'.index ==> e'.index[p] == e.index[p])
            && e' == e.(status := e'.status, sessions := e'.sessions, index := e'.index)
  {
    LiveTickets(e, m);
    var rosters := Rosters(e.sessions);
    assert rosters[m] == e.sessions[m].answers.Keys;
  }

  /** What DroppedBrings says, of a handler. */
  ghost predicate Ended(e: Engine, e': Engine, m: TicketId, s: Status)
    requires m in e.sessions
  {
    && StatusesMove(e, e', ToSet(e.sessions[m].tickets), s)
    && e'.sessions == e.sessions - {m}
    && (forall p :: p in e'.index <==> p in e.index && e.index[p] != m)
    && (forall p :: p in e'.index ==> e'.index[p] == e.index[p])
  }

  /** Failing ends a live session as FAILED. */
  lemma FailBrings(e: Engine, m: TicketId)
    requires Core(e)
    ensures var e' := AfterFail(e, m);
            if m in e.sessions
            then Ended(e, e', m, Failed) && e' == e.(status := e'.status, sessions := e'.sessions, index := e'.index)
            else e' == e
  {
    hide Core, Dropped, AfterFail, StatusesMove;
    FailIs(e, m);
    if m in e.sessions {
      DroppedBrings(e, m, Failed);
    }
  }

  /** A timeout ends a session as TIMED_OUT exactly if that still has the status awaited. */
  lemma TimeoutBrings(e: Engine, m: TicketId, awaited: Status)
    requires Core(e)
    ensures var e' := AfterTimeout(e, m, awaited);
            if m in e.sessions && e.sessions[m].status == awaited
            then Ended(e, e', m, TimedOut) && e' == e.(status := e'.status, sessions := e'.sessions, index := e'.index)
            else e' == e
  {
    hide Core, Dropped, AfterTimeout, StatusesMove;
    TimeoutIs(e, m, awaited);
    if m in e.sessions {
      DroppedBrings(e, m, TimedOut);
    }
  }

  /** A completion ends a placed session as COMPLETED if placement and zone succeeded, and any other live session as
      FAILED. */
  lemma CompleteBrings(e: Engine, m: TicketId, success: bool, zoneOk: bool)
    requires Core(e)
    ensures var e' := AfterComplete(e, m, success, zoneOk);
            if m !in e.sessions then e' == e
            else if success && zoneOk && e.sessions[m].status.Placing?
            then && Ended(e, e', m, Completed)
                 && e' == e.(status := e'.status, sessions := e'.sessions, index := e'.index,
                             done := e.done[m := e.sessions[m]])
            else Ended(e, e', m, Failed) && e' == e.(status := e'.status, sessions := e'.sessions, index := e'.index)
  {
    hide Core, Dropped, AfterComplete, StatusesMove;
    CompleteIs(e, m, success, zoneOk);
    if m in e.sessions {
      DroppedBrings(e, m, Completed);
      DroppedBrings(e, m, Failed);
      hide Ended;
      EndedToo(e, Dropped(e, m, Completed), AfterComplete(e, m, success, zoneOk), m, Completed);
    }
  }

  lemma EndedToo(e: Engine, e1: Engine, e': Engine, m: TicketId, s: Status)
    requires m in e.sessions
    ensures Ended(e, e1, m, s) && e'.status == e1.status && e'.sessions == e1.sessions && e'.index == e1.index
            ==> Ended(e, e', m, s)
  {
  }

  // ---------- Answers ----------

  /** The player's session is asking, and he has not answered it yet. */
  ghost predicate Awaited(e: Engine, p: PlayerKey) {
    && p in e.index && e.index[p] in e.sessions && e.sessions[e.index[p]].status.RequiresAcceptance?
    && p in e.sessions[e.index[p]].answers && !e.sessions[e.index[p]].answers[p].responded
  }

  /** An answer counts exactly if it is awaited. */
  lemma AwaitedCounts(e: Engine, p: PlayerKey, accept: bool, now: int)
    requires Core(e)
    ensures Counts(e, p) <==> Awaited(e, p)
    ensures !Awaited(e, p) ==> AfterAnswer(e, p, accept, now) == e
  {
    hide EarlySane, IndexSane, LogSane, DoneSane, CompletedSane;
    if Awaited(e, p) {
      assert SessionSane(e.info, e.status, e.index[p], e.sessions[e.index[p]]);
    }
  }

  /** An acceptance that is awaited is recorded as the player's answer. If everybody else has accepted, session and
      tickets are PLACING, and the placement times out in ten seconds and completes in two; otherwise no status
      moves and nothing is booked. */
  lemma AcceptanceBrings(e: Engine, p: PlayerKey, now: int)
    requires Core(e) && Awaited(e, p)
    ensures var e', m := AfterAnswer(e, p, true, now), e.index[p];
            var s, last := e.sessions[m], forall q :: q in e.sessions[m].answers && q != p ==> e.sessions[m].answers[q].accepted;
            && StatusesMove(e, e', ToSet(s.tickets), if last then Placing else RequiresAcceptance)
            && e'.sessions == e.sessions[m := Session(s.tickets, if last then Placing else RequiresAcceptance,
                                                      s.answers[p := Answer(true, true)])]
            && e'.log == e.log + multiset{Entry(m, p, true)}
            && multiset(e'.jobs) == multiset(e.jobs) + (if last then multiset{(now + 10000, TimeoutPlace(m)),
                                                                             (now + 2000, Complete(m))} else multiset{})
            && e' == e.(status := e'.status, sessions := e'.sessions, log := e'.log, jobs := e'.jobs)
  {
    var m := e.index[p];
    AwaitedCounts(e, p, true, now);
    LiveTickets(e, m);
    LastAnswer(e.sessions[m], p);
    PlaceJobsBooked(e.jobs, m, now);
    hide Core, Counts, PlaceJobs, AfterAnswer, AllAccepted;
    AcceptIs(e, p, now);
    hide SetAll;
    SetAllMoves(e, AfterAnswer(e, p, true, now), e.sessions[m].tickets, Accepted(e.sessions[m], p).status);
  }

  lemma LastAnswer(s: Session, p: PlayerKey)
    requires p in s.answers
    ensures AllAccepted(WithAnswer(s, p)) <==> forall q :: q in s.answers && q != p ==> s.answers[q].accepted
  {
    var s' := WithAnswer(s, p);
    forall q | q in s.answers && q != p ensures s'.answers[q] == s.answers[q] {
    }
  }

  lemma PlaceJobsBooked(q: Queue<Job>, m: TicketId, now: int)
    ensures multiset(PlaceJobs(q, m, now))
         == multiset(q) + multiset{(now + 10000, TimeoutPlace(m)), (now + 2000, Complete(m))}
  {
    hide Insert;
    InsertKeepsAll(q, now + 10000, TimeoutPlace(m));
    InsertKeepsAll(Insert(q, now + 10000, TimeoutPlace(m)), now + 2000, Complete(m));
  }

  lemma SetAllMoves(e: Engine, e': Engine, ids: seq<TicketId>, s: Status)
    requires e'.status == SetAll(e.status, ToSet(ids), s) && forall id :: id in ids ==> id in e.status
    ensures StatusesMove(e, e', ToSet(ids), s)
  {
  }

  /** A rejection that is awaited fails the session with all its tickets, and punishes its player for fifteen
      seconds. */
  lemma RejectionBrings(e: Engine, p: PlayerKey, now: int)
    requires Core(e) && Awaited(e, p)
    ensures var e', m := AfterAnswer(e, p, false, now), e.index[p];
            && Ended(e, e', m, Failed)
            && e' == e.(status := e'.status, sessions := e'.sessions, index := e'.index,
                        log := e.log + multiset{Entry(m, p, false)}, penalties := e.penalties + [(p, now + 15000)])
  {
    hide Core, Dropped, AfterAnswer, StatusesMove;
    var m := e.index[p];
    AwaitedCounts(e, p, false, now);
    RejectIs(e, p, now);
    DroppedBrings(e, m, Failed);
    hide Ended;
    EndedToo(e, Dropped(e, m, Failed), AfterAnswer(e, p, false, now), m, Failed);
  }

  // ---------- Creation ----------

  /** The acceptances of the players, a second apart. */
  ghost function Asked(now: int, players: seq<PlayerKey>): multiset<(int, Job)> {
    if players == [] then multiset{}
    else Asked(now, players[..|players| - 1])
         + multiset{(now + 1000 * |players|, AutoAccept(players[|players| - 1]))}
  }

  lemma {:induction false} AutoAcceptsBooked(q: Queue<Job>, now: int, players: seq<PlayerKey>)
    ensures multiset(AutoAccepts(q, now, players)) == multiset(q) + Asked(now, players)
  {
    hide Insert;
    if players != [] {
      var front := players[..|players| - 1];
      AutoAcceptsBooked(q, now, front);
      OneMoreAsked(AutoAccepts(q, now, front), multiset(q), Asked(now, front), now + 1000 * |players|,
                   AutoAccept(players[|players| - 1]));
    }
  }

  lemma OneMoreAsked(q: Queue<Job>, before: multiset<(int, Job)>, asked: multiset<(int, Job)>, due: int, j: Job)
    requires multiset(q) == before + asked
    ensures multiset(Insert(q, due, j)) == before + (asked + multiset{(due, j)})
  {
    InsertKeepsAll(q, due, j);
  }

  lemma AcceptJobsBooked(e: Engine, list: seq<TicketId>, now: int)
    requires list != []
    ensures multiset(AcceptJobs(e, list, now))
         == multiset(e.jobs) + multiset{(now + 60000, TimeoutAccept(list[0]))} + Asked(now, Roster(e.info, list))
  {
    hide Insert, AutoAccepts;
    InsertKeepsAll(e.jobs, now + 60000, TimeoutAccept(list[0]));
    AutoAcceptsBooked(Insert(e.jobs, now + 60000, TimeoutAccept(list[0])), now, Roster(e.info, list));
  }

  /** One of the tickets lists the player. */
  ghost predicate ListedBy(e: Engine, list: seq<TicketId>, p: PlayerKey) {
    exists id :: id in list && id in e.info && p in e.info[id].players
  }

  lemma ListedIsPlayers(e: Engine, list: seq<TicketId>)
    ensures forall p :: p in PlayersOf(e.info, list) <==> ListedBy(e, list, p)
  {
  }

  /** A session under the first ticket's id now asks exactly the players of the tickets; nobody has answered. */
  ghost predicate Opens(e: Engine, e': Engine, list: seq<TicketId>)
    requires list != []
  {
    var m := list[0];
    && e'.sessions.Keys == e.sessions.Keys + {m} && (forall x :: x in e.sessions ==> e'.sessions[x] == e.sessions[x])
    && e'.sessions[m].tickets == list && e'.sessions[m].status == RequiresAcceptance
    && (forall p :: p in e'.sessions[m].answers <==> ListedBy(e, list, p))
    && (forall p :: p in e'.sessions[m].answers ==> e'.sessions[m].answers[p] == Answer(false, false))
    && (forall p :: p in e'.index <==> p in e.index || ListedBy(e, list, p))
    && (forall p :: p in e'.index ==> e'.index[p] == if ListedBy(e, list, p) then m else e.index[p])
  }

  lemma CreatedOpens(e: Engine, list: seq<TicketId>, now: int)
    requires list != [] && list[0] !in e.sessions
    ensures Opens(e, Created(e, list, now), list)
  {
    hide AcceptJobs, IsParty;
    ListedIsPlayers(e, list);
  }

  lemma FailedHandedBack(e: Engine, e0: Engine, list: seq<TicketId>)
    requires e0 == e.(flight := e.flight - {list}) && e.status.Keys == e.info.Keys
    requires forall id :: id in list ==> id in e.status && e.status[id].Searching?
    ensures var e' := NotifiedFailure(e0, ToSet(list));
            && StatusesMove(e, e', ToSet(list), Failed) && HandedBack(e, e', list)
            && e' == e.(status := e'.status, party := e'.party, solo := e'.solo, flight := e.flight - {list})
  {
    hide IsParty;
  }

  /** A match becomes a session if a world is found and none of its players is in a session: its tickets are
      REQUIRES_ACCEPTANCE, all its players are asked and indexed, the acceptance times out in a minute, and the
      automatic acceptances come a second apart. Otherwise all its tickets are FAILED and no session, index entry or
      job changes. Either way its tickets leave the registry of the manager they are handed back to. */
  lemma CreationBrings(e: Engine, list: seq<TicketId>, now: int, worldFound: bool)
    requires Core(e) && list in e.flight
    ensures list != []
    ensures var e' := AfterCreate(e.(flight := e.flight - {list}), list, now, worldFound);
            && HandedBack(e, e', list)
            && (if worldFound && forall p :: ListedBy(e, list, p) ==> p !in e.index
                then && StatusesMove(e, e', ToSet(list), RequiresAcceptance) && Opens(e, e', list)
                     && NoDuplicates(Roster(e.info, list))
                     && (forall p :: p in Roster(e.info, list) <==> ListedBy(e, list, p))
                     && multiset(e'.jobs) == multiset(e.jobs) + multiset{(now + 60000, TimeoutAccept(list[0]))}
                                             + Asked(now, Roster(e.info, list))
                else && StatusesMove(e, e', ToSet(list), Failed)
                     && e'.sessions == e.sessions && e'.index == e.index && e'.jobs == e.jobs)
            && e' == e.(status := e'.status, party := e'.party, solo := e'.solo, flight := e.flight - {list},
                        sessions := e'.sessions, index := e'.index, jobs := e'.jobs)
  {
    CreationKnown(e, list);
    NobodyIndexed(e, list);
    hide Core, AfterCreate, NotifiedFailure, AcceptJobs, StatusesMove, HandedBack, Opens, ListedBy, PlayersOf, Asked,
         Roster, Created, IsParty;
    CreateIs(e, list, now, worldFound);
    if worldFound && PlayersOf(e.info, list) !! e.index.Keys {
      SuccessBrings(e, list, now);
    } else {
      FailedHandedBack(e, e.(flight := e.flight - {list}), list);
    }
  }

  lemma SuccessBrings(e: Engine, list: seq<TicketId>, now: int)
    requires list != [] && list[0] !in e.sessions && forall id :: id in list ==> id in e.status
    requires ToSet(Roster(e.info, list)) == PlayersOf(e.info, list)
    ensures var e' := Created(e, list, now);
            && HandedBack(e, e', list) && StatusesMove(e, e', ToSet(list), RequiresAcceptance) && Opens(e, e', list)
            && (forall p :: p in Roster(e.info, list) <==> ListedBy(e, list, p))
            && multiset(e'.jobs) == multiset(e.jobs) + multiset{(now + 60000, TimeoutAccept(list[0]))}
                                    + Asked(now, Roster(e.info, list))
            && e' == e.(status := e'.status, party := e'.party, solo := e'.solo, flight := e.flight - {list},
                        sessions := e'.sessions, index := e'.index, jobs := e'.jobs)
  {
    hide AcceptJobs, StatusesMove, HandedBack, Opens, ListedBy, PlayersOf, Asked, Roster, Blank, Claimed, IsParty;
    CreatedOpens(e, list, now);
    CreatedRegistries(e, list, now);
    AcceptJobsBooked(e, list, now);
    CreatedMoves(e, list, now);
    RosterListed(e, list);
  }

  lemma CreatedMoves(e: Engine, list: seq<TicketId>, now: int)
    requires list != [] && forall id :: id in list ==> id in e.status
    ensures StatusesMove(e, Created(e, list, now), ToSet(list), RequiresAcceptance)
  {
    hide AcceptJobs, IsParty, Blank, Claimed;
  }

  lemma CreationKnown(e: Engine, list: seq<TicketId>)
    requires Core(e) && list in e.flight
    ensures list != [] && list[0] !in e.sessions && e.status.Keys == e.info.Keys
    ensures forall id :: id in list ==> id in e.status && e.status[id].Searching?
    ensures NoDuplicates(Roster(e.info, list)) && ToSet(Roster(e.info, list)) == PlayersOf(e.info, list)
  {
    hide SessionsSane, IndexSane, LogSane, DoneSane, CompletedSane, OwnersSane, RegistriesSane, Roster, PlayersOf;
    FlightList(e, list);
    FlightApart(e, list);
    RosterApart(e.info, list);
    SearchingIsNoSession(e, list[0]);
  }

  lemma NobodyIndexed(e: Engine, list: seq<TicketId>)
    ensures (forall p :: ListedBy(e, list, p) ==> p !in e.index) <==> PlayersOf(e.info, list) !! e.index.Keys
  {
    hide PlayersOf, ListedBy;
    ListedIsPlayers(e, list);
    if forall p :: ListedBy(e, list, p) ==> p !in e.index {
      forall p | p in PlayersOf(e.info, list) ensures p !in e.index.Keys {
      }
    }
  }

  lemma RosterListed(e: Engine, list: seq<TicketId>)
    requires ToSet(Roster(e.info, list)) == PlayersOf(e.info, list)
    ensures forall p :: p in Roster(e.info, list) <==> ListedBy(e, list, p)
  {
    hide PlayersOf, ListedBy, Roster;
    ListedIsPlayers(e, list);
    forall p ensures p in Roster(e.info, list) <==> p in PlayersOf(e.info, list) {
      assert p in Roster(e.info, list) <==> p in ToSet(Roster(e.info, list));
    }
  }

  // ---------- Jobs and steps ----------

  /** A job that is run is off the queue, and does what it was booked for. */
  lemma JobBrings(e: Engine, now: int, zoneOk: bool)
    requires e.jobs != []
    ensures var e1, e' := e.(jobs := e.jobs[1..]), AfterJob(e, now, zoneOk);
            match e.jobs[0].1
            case TimeoutAccept(m) => e' == AfterTimeout(e1, m, RequiresAcceptance)
            case AutoAccept(p) => e' == AfterAnswer(e1, p, true, now)
            case TimeoutPlace(m) => e' == AfterTimeout(e1, m, Placing)
            case Complete(m) => e' == AfterComplete(e1, m, true, zoneOk)
  {
    hide AfterTimeout, AfterAnswer, AfterComplete;
  }

  /** Every step of a run is its own handler. */
  lemma StepBrings(e: Engine, step: Step)
    requires Enabled(e, step)
    ensures var e' := Apply(e, step);
            match step
            case Register(id, info, toParty) => e' == AfterRegister(e, id, info, toParty)
            case Enqueue(id, toParty, ok) => e' == AfterQueue(e, id, toParty, ok)
            case Stop(p, toParty, dodge, now) => e' == AfterStop(e, p, toParty, dodge, now)
            case Match(list, fromParty) => e' == AfterMatch(e, list)
            case Create(list, now, worldFound) => e' == AfterCreate(e.(flight := e.flight - {list}), list, now, worldFound)
            case Reply(p, accept, now) => e' == AfterAnswer(e, p, accept, now)
            case Fail(m) => e' == AfterFail(e, m)
            case Placed(m, success, zoneOk) => e' == AfterComplete(e, m, success, zoneOk)
            case RunJob(now, zoneOk) => e' == AfterJob(e, now, zoneOk)
  {
    hide AfterRegister, AfterQueue, AfterStop, AfterMatch, AfterCreate, AfterAnswer, AfterFail, AfterComplete, AfterJob;
  }

  // ---------- A whole run ----------

  /** One player without a party, given to the solo manager. */
  const ONE: TicketInfo := TicketInfo({1}, 0)

  ghost function OneMatched(): Engine {
    Engine(map[8 := ONE], map[8 := Searching], {}, {8}, {[8]}, map[], map[], [], multiset{}, [], map[],
           map[8 := false])
  }

  lemma OneStarts(e0: Engine) returns (e1: Engine, e2: Engine)
    requires Initial(e0)
    ensures Enabled(e0, Register(8, ONE, false)) && e1 == Apply(e0, Register(8, ONE, false))
    ensures Enabled(e1, Enqueue(8, false, true)) && e2 == Apply(e1, Enqueue(8, false, true))
    ensures Enabled(e2, Match([8], false)) && Apply(e2, Match([8], false)) == OneMatched()
  {
    e1 := AfterRegister(e0, 8, ONE, false);
    assert e1 == Engine(map[8 := ONE], map[8 := Unset], {}, {8}, {}, map[], map[], [], multiset{}, [], map[],
                        map[8 := false]);
    e2 := AfterQueue(e1, 8, false, true);
    assert e2.status == map[8 := Queued];
    assert SetAll(e2.status, ToSet([8]), Searching) == map[8 := Searching];
  }

  lemma OneListed(e: Engine)
    requires e == OneMatched()
    ensures forall p :: ListedBy(e, [8], p) <==> p == 1
    ensures [8] in e.flight && 1 !in e.index
  {
    var id: TicketId := 8;
    assert id in [8] && id in e.info && 1 in e.info[id].players;
  }

  /** From his acceptance on, the session of a single player goes through. */
  lemma OneCompletes(e3: Engine, e4: Engine, e5: Engine, e6: Engine)
    requires Core(e3) && Core(e4) && Core(e5) && e3 == OneMatched()
    requires e4 == AfterCreate(e3.(flight := e3.flight - {[8]}), [8], 0, true)
    requires e5 == AfterAnswer(e4, 1, true, 0) && e6 == AfterComplete(e5, 8, true, true)
    ensures 8 in e4.sessions && 8 in e5.sessions && e5.sessions[8].status.Placing?
    ensures 8 in e6.status && e6.status[8] == Completed && 8 !in e6.solo && 8 in e6.done
  {
    OneListed(e3);
    hide Core, AfterCreate, AfterAnswer, AfterComplete, ListedBy, Asked, Roster;
    CreationBrings(e3, [8], 0, true);
    assert Awaited(e4, 1);
    AcceptanceBrings(e4, 1, 0);
    CompleteBrings(e5, 8, true, true);
    assert 8 in ToSet([8]);
    OneHandedBack(e3, e4);
  }

  lemma OneHandedBack(e: Engine, e': Engine)
    requires e == OneMatched() && HandedBack(e, e', [8])
    ensures 8 !in e'.solo
  {
    var id: TicketId := 8;
    TwoMakeAParty(ONE.players, ONE.partyKey);
    assert id in [8] && id in e.info && !IsParty(e.info[id]);
  }

  /** A run in which a ticket is registered, queued, matched, asked, accepted, placed and COMPLETED. */
  lemma SomeSessionCompletes()
    ensures exists es: seq<Engine>, steps: seq<Step> ::
      && IsRun(es, steps) && |es| == 7
      && 8 in es[6].status && es[6].status[8] == Completed && 8 !in es[6].solo && 8 in es[6].done
  {
    hide Apply, Enabled;
    var e0 := Engine(map[], map[], {}, {}, {}, map[], map[], [], multiset{}, [], map[], map[]);
    var e1, e2 := OneStarts(e0);
    OneEnabled();
    var e3 := OneMatched();
    var e4 := Apply(e3, Create([8], 0, true));
    var e5 := Apply(e4, Reply(1, true, 0));
    var e6 := Apply(e5, Placed(8, true, true));
    var es := [e0, e1, e2, e3, e4, e5, e6];
    var steps := [Register(8, ONE, false), Enqueue(8, false, true), Match([8], false), Create([8], 0, true),
                  Reply(1, true, 0), Placed(8, true, true)];
    assert IsRun(es, steps);
    OneRuns(es, steps);
  }

  lemma OneEnabled()
    ensures Enabled(OneMatched(), Create([8], 0, true))
    ensures forall e :: Enabled(e, Reply(1, true, 0)) && Enabled(e, Placed(8, true, true))
  {
  }

  lemma OneRuns(es: seq<Engine>, steps: seq<Step>)
    requires IsRun(es, steps) && |es| == 7 && es[3] == OneMatched()
    requires steps[3] == Create([8], 0, true) && steps[4] == Reply(1, true, 0) && steps[5] == Placed(8, true, true)
    ensures 8 in es[6].status && es[6].status[8] == Completed && 8 !in es[6].solo && 8 in es[6].done
  {
    StepBrings(es[3], steps[3]);
    StepBrings(es[4], steps[4]);
    StepBrings(es[5], steps[5]);
    assert es[4] == Apply(es[3], steps[3]) && es[5] == Apply(es[4], steps[4]) && es[6] == Apply(es[5], steps[5]);
    hide Apply, Enabled, EngineSane, Core, AfterCreate, AfterAnswer, AfterComplete, OneMatched;
    RunStaysSane(es, steps, 3);
    RunStaysSane(es, steps, 4);
    RunStaysSane(es, steps, 5);
    SaneIsCore(es[3]);
    SaneIsCore(es[4]);
    SaneIsCore(es[5]);
    OneCompletes(es[3], es[4], es[5], es[6]);
  }
}
