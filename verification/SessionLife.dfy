/** The life of one session inside the engine: created from a match, answered, placed, ended. */
module SessionLife {
  import opened Tickets
  import opened Ordered
  import opened TimedQueue
  import opened Registries
  import opened SessionProtocol
  import opened SessionSafety

  // ---------- Only jobs and history change ----------

  /** What does not speak of jobs, penalties, answers given or sessions done is not affected by them. */
  lemma HistoryDiffers(e: Engine, e': Engine)
    requires e' == e.(jobs := e'.jobs, penalties := e'.penalties, log := e'.log, done := e'.done)
    ensures EarlySane(e) ==> EarlySane(e')
    ensures SessionsSane(e) ==> SessionsSane(e')
    ensures IndexSane(e) ==> IndexSane(e')
    ensures LogSane(e) && e'.log == e.log ==> LogSane(e')
    ensures CompletedSane(e) && e'.done == e.done ==> CompletedSane(e')
    ensures DoneSane(e) && e'.log == e.log && e'.done == e.done ==> DoneSane(e')
    ensures LateSane(e) && e'.log == e.log && e'.done == e.done ==> LateSane(e')
  {
    hide SessionSane, Answered, ClosedWell;
  }

  // ---------- One session changes, the rest stays ----------

  /** The last status of a session. */
  predicate Ending(s: Status) {
    Terminal(s) && !s.Cancelled?
  }

  /** Only the tickets of session m change status, away from or between live statuses. */
  ghost predicate OnlySession(e: Engine, e': Engine, m: TicketId, s: Status) {
    && m in e.sessions && e'.info == e.info && e'.party == e.party && e'.solo == e.solo && e'.flight == e.flight
    && e'.route == e.route && (Live(s) || Ending(s))
    && e'.status == SetAll(e.status, ToSet(e.sessions[m].tickets), s)
  }

  lemma LiveTickets(e: Engine, m: TicketId)
    requires SessionsSane(e) && m in e.sessions
    ensures m in e.sessions[m].tickets && Live(e.sessions[m].status)
    ensures forall id :: id in e.sessions[m].tickets ==>
              id in e.info && id in e.status && e.status[id] == e.sessions[m].status
  {
    SessionTickets(e.info, e.status, m, e.sessions[m]);
  }

  lemma EarlyUntouched(e: Engine, e': Engine, m: TicketId, s: Status)
    requires EarlySane(e) && SessionsSane(e) && OnlySession(e, e', m, s)
    ensures EarlySane(e')
  {
    hide IsParty, FlightSane, RegistriesSane, SessionsSane, SessionSane;
    LiveTickets(e, m);
    FlightKept(e, e');
    RegistriesShrink(e, e');
  }

  /** The other sessions keep their tickets' statuses. */
  lemma OtherSessionKept(e: Engine, e': Engine, m: TicketId, s: Status, x: TicketId)
    requires SessionsSane(e) && OnlySession(e, e', m, s) && x in e.sessions && x != m
    ensures SessionSane(e'.info, e'.status, x, e.sessions[x])
  {
    SessionTickets(e.info, e.status, x, e.sessions[x]);
    assert SessionSane(e.info, e.status, x, e.sessions[x]);
    forall id | id in e.sessions[x].tickets ensures id !in e.sessions[m].tickets {
    }
    SessionKept(e.info, e.status, e'.info, e'.status, x, e.sessions[x]);
  }

  lemma DroppedSessions(e: Engine, m: TicketId, s: Status)
    requires SessionsSane(e) && m in e.sessions && Ending(s)
    ensures SessionsSane(Dropped(e, m, s))
  {
    hide SessionSane;
    var e' := Dropped(e, m, s);
    forall x | x in e'.sessions ensures SessionSane(e'.info, e'.status, x, e'.sessions[x]) {
      OtherSessionKept(e, e', m, s, x);
    }
    forall id | id in e'.status && Live(e'.status[id]) ensures SomeSession(e'.sessions, id) {
      assert id !in e.sessions[m].tickets && SomeSession(e.sessions, id);
      var x :| x in e.sessions && id in e.sessions[x].tickets;
      assert x in e'.sessions && id in e'.sessions[x].tickets;
    }
  }

  lemma DroppedIndex(e: Engine, m: TicketId, s: Status)
    requires IndexSane(e) && m in e.sessions
    ensures IndexSane(Dropped(e, m, s))
  {
    hide Inverse, Released;
    ReleaseKeepsInverse(e.index, Rosters(e.sessions), m);
    assert Rosters(e.sessions - {m}) == Rosters(e.sessions) - {m};
  }

  lemma DroppedLog(e: Engine, m: TicketId, s: Status)
    requires LogSane(e) && m in e.sessions && Ending(s)
    ensures LogSane(Dropped(e, m, s))
  {
    hide Answered;
  }

  lemma DroppedDone(e: Engine, m: TicketId, s: Status)
    requires SessionsSane(e) && DoneSane(e) && CompletedSane(e) && m in e.sessions && Ending(s) && !s.Completed?
    ensures DoneSane(Dropped(e, m, s)) && CompletedSane(Dropped(e, m, s))
  {
    hide SessionsSane, DoneSane, CompletedSane;
    LiveTickets(e, m);
    DoneKept(e, Dropped(e, m, s));
  }

  /** A session that ends otherwise than completed leaves everything sane. */
  lemma DroppedSane(e: Engine, m: TicketId, s: Status)
    requires EarlySane(e) && LateSane(e) && m in e.sessions && Ending(s) && !s.Completed?
    ensures EarlySane(Dropped(e, m, s)) && LateSane(Dropped(e, m, s))
  {
    hide EarlySane, SessionsSane, IndexSane, LogSane, DoneSane, CompletedSane;
    EarlyUntouched(e, Dropped(e, m, s), m, s);
    DroppedSessions(e, m, s);
    DroppedIndex(e, m, s);
    DroppedLog(e, m, s);
    DroppedDone(e, m, s);
  }

  // ---------- Completion ----------

  lemma CompletedDone(e: Engine, m: TicketId)
    requires SessionsSane(e) && LogSane(e) && DoneSane(e) && CompletedSane(e)
    requires m in e.sessions && e.sessions[m].status.Placing?
    ensures var e' := Dropped(e, m, Completed).(done := e.done[m := e.sessions[m]]);
            DoneSane(e') && CompletedSane(e')
  {
    hide Answered;
    var s := e.sessions[m];
    var e' := Dropped(e, m, Completed).(done := e.done[m := s]);
    LiveTickets(e, m);
    assert SessionSane(e.info, e.status, m, s);
    forall x | x in e'.done ensures ClosedWell(e'.status, e'.log, x, e'.done[x]) {
      if x == m {
        forall p | p in s.answers ensures Answered(e.log, m, p, Answer(true, true)) {
          assert Answered(e.log, m, p, s.answers[p]) && s.answers[p] == Answer(true, true);
        }
      } else {
        assert ClosedWell(e.status, e.log, x, e.done[x]);
      }
    }
    CompletedCovered(e, m);
  }

  lemma CompletedCovered(e: Engine, m: TicketId)
    requires SessionsSane(e) && DoneSane(e) && CompletedSane(e) && m in e.sessions
    ensures CompletedSane(Dropped(e, m, Completed).(done := e.done[m := e.sessions[m]]))
  {
    hide SessionSane, ClosedWell;
    var e' := Dropped(e, m, Completed).(done := e.done[m := e.sessions[m]]);
    LiveTickets(e, m);
    forall id | id in e'.status && e'.status[id].Completed? ensures SomeSession(e'.done, id) {
      if id in e.sessions[m].tickets {
        assert id in e'.done[m].tickets;
      } else {
        assert SomeSession(e.done, id);
        var x :| x in e.done && id in e.done[x].tickets;
        DoneIsOld(e, m, x);
        assert id in e'.done[x].tickets;
      }
    }
  }

  lemma DoneIsOld(e: Engine, m: TicketId, x: TicketId)
    requires SessionsSane(e) && DoneSane(e) && m in e.sessions && x in e.done
    ensures x != m
  {
    LiveTickets(e, m);
    assert ClosedWell(e.status, e.log, x, e.done[x]);
  }

  lemma CompletedSessionSane(e: Engine, m: TicketId)
    requires EarlySane(e) && LateSane(e) && m in e.sessions && e.sessions[m].status.Placing?
    ensures var e' := Dropped(e, m, Completed).(done := e.done[m := e.sessions[m]]);
            EarlySane(e') && LateSane(e')
  {
    hide EarlySane, SessionsSane, IndexSane, LogSane, DoneSane, CompletedSane;
    var e1 := Dropped(e, m, Completed);
    EarlyUntouched(e, e1, m, Completed);
    DroppedSessions(e, m, Completed);
    DroppedIndex(e, m, Completed);
    DroppedLog(e, m, Completed);
    CompletedDone(e, m);
    HistoryDiffers(e1, e1.(done := e.done[m := e.sessions[m]]));
  }

  // ---------- Answers ----------

  /** Session m takes a new state; its tickets follow its status, and the answer is recorded. */
  ghost function Updated(e: Engine, m: TicketId, s: Session, x: Entry): Engine
    requires m in e.sessions
  {
    e.(status := SetAll(e.status, ToSet(e.sessions[m].tickets), s.status), sessions := e.sessions[m := s],
       log := e.log + multiset{x})
  }

  ghost predicate UpdateFits(e: Engine, m: TicketId, s: Session) {
    && m in e.sessions && s.tickets == e.sessions[m].tickets && s.answers.Keys == e.sessions[m].answers.Keys
    && Live(s.status)
    && (forall p :: p in s.answers ==> (s.answers[p].responded <==> s.answers[p].accepted))
    && (s.status.Placing? <==> AllAccepted(s))
  }

  lemma UpdatedSessions(e: Engine, m: TicketId, s: Session, x: Entry)
    requires SessionsSane(e) && UpdateFits(e, m, s)
    ensures SessionsSane(Updated(e, m, s, x))
  {
    var e' := Updated(e, m, s, x);
    LiveTickets(e, m);
    forall y | y in e'.sessions ensures SessionSane(e'.info, e'.status, y, e'.sessions[y]) {
      if y == m {
        assert SessionSane(e.info, e.status, m, e.sessions[m]);
      } else {
        OtherSessionKept(e, e', m, s.status, y);
      }
    }
    UpdatedCovers(e, m, s, x);
  }

  lemma UpdatedCovers(e: Engine, m: TicketId, s: Session, x: Entry)
    requires SessionsSane(e) && UpdateFits(e, m, s)
    ensures var e' := Updated(e, m, s, x);
            SessionsApart(e'.sessions)
            && forall id :: id in e'.status && Live(e'.status[id]) ==> SomeSession(e'.sessions, id)
  {
    hide SessionSane;
    var e' := Updated(e, m, s, x);
    LiveTickets(e, m);
    forall id | id in e'.status && Live(e'.status[id]) ensures SomeSession(e'.sessions, id) {
      assert SomeSession(e.sessions, id);
      var y :| y in e.sessions && id in e.sessions[y].tickets;
      assert id in e'.sessions[y].tickets;
    }
  }

  lemma UpdatedIndex(e: Engine, m: TicketId, s: Session, x: Entry)
    requires IndexSane(e) && UpdateFits(e, m, s)
    ensures IndexSane(Updated(e, m, s, x))
  {
    assert Rosters(e.sessions[m := s]) == Rosters(e.sessions);
  }

  /** The first answer of a player is the one that counts. */
  ghost predicate FirstAnswer(e: Engine, m: TicketId, s: Session, p: PlayerKey) {
    && m in e.sessions && p in e.sessions[m].answers && !e.sessions[m].answers[p].responded
    && s.answers == e.sessions[m].answers[p := Answer(true, true)]
  }

  lemma AnsweredOther(log: multiset<Entry>, m: TicketId, p: PlayerKey, a: Answer, x: Entry)
    requires Answered(log, m, p, a) && (x.session != m || x.player != p)
    ensures Answered(log + multiset{x}, m, p, a)
  {
  }

  lemma AnsweredFirst(log: multiset<Entry>, m: TicketId, p: PlayerKey, a: Answer)
    requires Answered(log, m, p, a) && !a.responded
    ensures Answered(log + multiset{Entry(m, p, true)}, m, p, Answer(true, true))
  {
  }

  /** An answer to another session does not touch a completed one. */
  lemma ClosedStays(status: map<TicketId, Status>, status': map<TicketId, Status>, log: multiset<Entry>,
                    m: TicketId, s: Session, x: Entry)
    requires ClosedWell(status, log, m, s) && x.session != m
    requires forall id :: id in status && status[id].Completed? ==> id in status' && status'[id].Completed?
    ensures ClosedWell(status', log + multiset{x}, m, s)
  {
    hide Answered;
    forall q | q in s.answers ensures Answered(log + multiset{x}, m, q, Answer(true, true)) {
      AnsweredOther(log, m, q, Answer(true, true), x);
    }
  }

  lemma UpdatedLog(e: Engine, m: TicketId, s: Session, p: PlayerKey)
    requires SessionsSane(e) && LogSane(e) && UpdateFits(e, m, s) && FirstAnswer(e, m, s, p)
    ensures LogSane(Updated(e, m, s, Entry(m, p, true)))
  {
    hide Answered, SessionsSane;
    var x := Entry(m, p, true);
    var e' := Updated(e, m, s, x);
    LiveTickets(e, m);
    forall y, q | y in e'.sessions && q in e'.sessions[y].answers
      ensures Answered(e'.log, y, q, e'.sessions[y].answers[q])
    {
      assert Answered(e.log, y, q, e.sessions[y].answers[q]);
      if y == m && q == p {
        AnsweredFirst(e.log, m, p, e.sessions[m].answers[p]);
      } else {
        AnsweredOther(e.log, y, q, e.sessions[y].answers[q], x);
      }
    }
    forall y | y in e'.log ensures y.session in e'.status && Stage(e'.status[y.session]) >= 3 {
      assert y == x || y in e.log;
    }
  }

  lemma UpdatedDone(e: Engine, m: TicketId, s: Session, p: PlayerKey)
    requires SessionsSane(e) && DoneSane(e) && CompletedSane(e) && UpdateFits(e, m, s)
    ensures DoneSane(Updated(e, m, s, Entry(m, p, true))) && CompletedSane(Updated(e, m, s, Entry(m, p, true)))
  {
    hide ClosedWell, SessionsSane;
    var e' := Updated(e, m, s, Entry(m, p, true));
    LiveTickets(e, m);
    forall x | x in e'.done ensures ClosedWell(e'.status, e'.log, x, e'.done[x]) {
      DoneIsOld(e, m, x);
      ClosedStays(e.status, e'.status, e.log, x, e.done[x], Entry(m, p, true));
    }
  }

  lemma UpdatedSane(e: Engine, m: TicketId, s: Session, p: PlayerKey)
    requires EarlySane(e) && LateSane(e) && UpdateFits(e, m, s) && FirstAnswer(e, m, s, p)
    ensures EarlySane(Updated(e, m, s, Entry(m, p, true))) && LateSane(Updated(e, m, s, Entry(m, p, true)))
  {
    hide EarlySane, SessionsSane, IndexSane, LogSane, DoneSane, CompletedSane, FirstAnswer;
    var x := Entry(m, p, true);
    EarlyUntouched(e, Updated(e, m, s, x), m, s.status);
    UpdatedSessions(e, m, s, x);
    UpdatedIndex(e, m, s, x);
    UpdatedLog(e, m, s, p);
    UpdatedDone(e, m, s, p);
  }

  // ---------- Rejection ----------

  /** A rejection is recorded, its player is penalised, and the session is gone. */
  ghost function Rejected(e: Engine, m: TicketId, p: PlayerKey, until: int): Engine
    requires m in e.sessions
  {
    Dropped(e, m, Failed).(log := e.log + multiset{Entry(m, p, false)}, penalties := e.penalties + [(p, until)])
  }

  lemma RejectedSane(e: Engine, m: TicketId, p: PlayerKey, until: int)
    requires EarlySane(e) && LateSane(e) && m in e.sessions
    ensures EarlySane(Rejected(e, m, p, until)) && LateSane(Rejected(e, m, p, until))
  {
    hide EarlySane, SessionsSane, IndexSane, LogSane, DoneSane, CompletedSane;
    var e1, e' := Dropped(e, m, Failed), Rejected(e, m, p, until);
    DroppedSane(e, m, Failed);
    LiveTickets(e, m);
    HistoryDiffers(e1, e');
    LoggedLog(e1, e', Entry(m, p, false));
    LoggedDone(e, e1, e', Entry(m, p, false));
  }

  lemma LoggedLog(e: Engine, e': Engine, x: Entry)
    requires LogSane(e) && x.session !in e.sessions && x.session in e.status && Stage(e.status[x.session]) >= 3
    requires e'.log == e.log + multiset{x} && e'.sessions == e.sessions && e'.status == e.status
    ensures LogSane(e')
  {
    hide Answered;
    forall y, q | y in e'.sessions && q in e'.sessions[y].answers
      ensures Answered(e'.log, y, q, e'.sessions[y].answers[q])
    {
      AnsweredOther(e.log, y, q, e.sessions[y].answers[q], x);
    }
    forall y | y in e'.log ensures y.session in e'.status && Stage(e'.status[y.session]) >= 3 {
      assert y == x || y in e.log;
    }
  }

  lemma LoggedDone(e: Engine, e1: Engine, e': Engine, x: Entry)
    requires SessionsSane(e) && DoneSane(e) && DoneSane(e1) && x.session in e.sessions && e1.done == e.done
    requires e'.log == e1.log + multiset{x} && e'.done == e1.done && e'.status == e1.status
    ensures DoneSane(e')
  {
    hide ClosedWell, SessionsSane;
    forall y | y in e'.done ensures ClosedWell(e'.status, e'.log, y, e'.done[y]) {
      DoneIsOld(e, x.session, y);
      ClosedStays(e1.status, e'.status, e1.log, y, e1.done[y], x);
    }
  }

  // ---------- Creation ----------

  /** A match has become a session that awaits acceptance; its tickets have left their registry. */
  ghost function Created(e: Engine, list: seq<TicketId>, now: int): Engine
    requires list != []
  {
    var e1 := e.(flight := e.flight - {list}, status := SetAll(e.status, ToSet(list), RequiresAcceptance),
                 sessions := e.sessions[list[0] := Session(list, RequiresAcceptance, Blank(e.info, list))],
                 index := Claimed(e.index, PlayersOf(e.info, list), list[0]),
                 jobs := AcceptJobs(e, list, now));
    e1.(party := e.party - OfParty(e, ToSet(list)), solo := e.solo - (ToSet(list) - OfParty(e, ToSet(list))))
  }

  /** A match on its way whose players are in no session. */
  ghost predicate Creatable(e: Engine, list: seq<TicketId>) {
    list in e.flight && list != [] && PlayersOf(e.info, list) !! e.index.Keys
  }

  lemma CreatedOwners(e: Engine, list: seq<TicketId>, now: int)
    requires EarlySane(e) && Creatable(e, list)
    ensures TicketsSane(Created(e, list, now)) && OwnersSane(Created(e, list, now))
  {
    FlightList(e, list);
    CreatedRegistries(e, list, now);
    CreatedOthers(e, list, now);
    OwnersFollow(e, Created(e, list, now), list);
  }

  /** The match's tickets leave the registry of the manager they are handed back to, and no other ticket
      leaves one. */
  ghost predicate HandedBack(e: Engine, e': Engine, list: seq<TicketId>) {
    && (forall id :: id in e'.party <==> id in e.party && !(id in list && id in e.info && IsParty(e.info[id])))
    && (forall id :: id in e'.solo <==> id in e.solo && !(id in list && !(id in e.info && IsParty(e.info[id]))))
  }

  /** Tickets go live and are handed back together. */
  lemma OwnersFollow(e: Engine, e': Engine, list: seq<TicketId>)
    requires TicketsSane(e) && OwnersSane(e) && HandedBack(e, e', list)
    requires e'.info == e.info && e'.route == e.route && e'.status.Keys == e.status.Keys
    requires forall id :: id in list ==> id in e.status && e.status[id].Searching? && e'.status[id].RequiresAcceptance?
    requires forall id :: id in e.status && id !in list ==> e'.status[id] == e.status[id]
    ensures TicketsSane(e') && OwnersSane(e')
  {
    hide IsParty;
  }

  lemma CreatedRegistries(e: Engine, list: seq<TicketId>, now: int)
    requires list != []
    ensures HandedBack(e, Created(e, list, now), list)
  {
    hide IsParty;
  }

  lemma CreatedEarly(e: Engine, list: seq<TicketId>, now: int)
    requires EarlySane(e) && Creatable(e, list)
    ensures EarlySane(Created(e, list, now))
  {
    hide IsParty, FlightSane, RegistriesSane, TicketsSane, OwnersSane;
    var e' := Created(e, list, now);
    FlightList(e, list);
    CreatedOwners(e, list, now);
    CreatedOthers(e, list, now);
    RegistriesShrink(e, e');
    FlightLanded(e, e', list);
  }

  lemma CreatedOthers(e: Engine, list: seq<TicketId>, now: int)
    requires Creatable(e, list)
    ensures var e' := Created(e, list, now);
            && e'.status.Keys == e.status.Keys
            && (forall id :: id in list && id in e.status ==> e'.status[id].RequiresAcceptance?)
            && (forall id :: id in e.status && id !in list ==>
                  e'.status[id] == e.status[id] && (id in e.party ==> id in e'.party) && (id in e.solo ==> id in e'.solo))
  {
    hide IsParty;
  }

  /** Nobody SEARCHING is in a session. */
  lemma SearchingNotLive(e: Engine, m: TicketId, id: TicketId)
    requires SessionsSane(e) && m in e.sessions && id in e.status && e.status[id].Searching?
    ensures id !in e.sessions[m].tickets
  {
    LiveTickets(e, m);
  }

  /** A new session asks somebody, and nobody has answered. */
  lemma BlankAsks(info: map<TicketId, TicketInfo>, list: seq<TicketId>)
    requires list != [] && list[0] in info && info[list[0]].players != {}
    ensures var s := Session(list, RequiresAcceptance, Blank(info, list));
            !AllAccepted(s) && forall p :: p in s.answers ==> (s.answers[p].responded <==> s.answers[p].accepted)
  {
    var s := Session(list, RequiresAcceptance, Blank(info, list));
    var id := list[0];
    var p := Pick(info[id].players);
    assert id in list && id in info && p in info[id].players;
    assert p in PlayersOf(info, list);
    assert !s.answers[p].accepted;
  }

  lemma CreatedSession(e: Engine, list: seq<TicketId>, now: int)
    requires EarlySane(e) && Creatable(e, list)
    ensures var e' := Created(e, list, now); SessionSane(e'.info, e'.status, list[0], e'.sessions[list[0]])
  {
    hide FlightSane, RegistriesSane, OwnersSane, AllAccepted, Blank, PlayersOf;
    var e' := Created(e, list, now);
    FlightList(e, list);
    CreatedOthers(e, list, now);
    BlankAsks(e.info, list);
  }

  lemma CreatedSessions(e: Engine, list: seq<TicketId>, now: int)
    requires EarlySane(e) && SessionsSane(e) && Creatable(e, list)
    ensures SessionsSane(Created(e, list, now))
    ensures list[0] !in e.sessions
  {
    hide EarlySane, SessionSane;
    var e' := Created(e, list, now);
    CreatedKnown(e, list);
    forall m | m in e.sessions && list[0] == m ensures false {
      SearchingNotLive(e, m, list[0]);
      LiveTickets(e, m);
    }
    forall m | m in e'.sessions ensures SessionSane(e'.info, e'.status, m, e'.sessions[m]) {
      if m == list[0] {
        CreatedSession(e, list, now);
      } else {
        CreatedOldSession(e, list, now, m);
      }
    }
    CreatedApart(e, list, now);
    CreatedCovers(e, list, now);
  }

  lemma CreatedKnown(e: Engine, list: seq<TicketId>)
    requires EarlySane(e) && Creatable(e, list)
    ensures forall id :: id in list ==> id in e.status && e.status[id].Searching?
  {
    FlightList(e, list);
  }

  lemma CreatedOldSession(e: Engine, list: seq<TicketId>, now: int, m: TicketId)
    requires EarlySane(e) && SessionsSane(e) && Creatable(e, list) && m in e.sessions && m != list[0]
    ensures var e' := Created(e, list, now); SessionSane(e'.info, e'.status, m, e.sessions[m])
  {
    hide EarlySane, SessionSane;
    var e' := Created(e, list, now);
    CreatedKnown(e, list);
    CreatedOthers(e, list, now);
    LiveTickets(e, m);
    SessionKept(e.info, e.status, e'.info, e'.status, m, e.sessions[m]);
  }

  lemma CreatedApart(e: Engine, list: seq<TicketId>, now: int)
    requires EarlySane(e) && SessionsSane(e) && Creatable(e, list)
    ensures SessionsApart(Created(e, list, now).sessions)
  {
    hide EarlySane, SessionSane;
    CreatedKnown(e, list);
    forall m, id | m in e.sessions && id in list ensures id !in e.sessions[m].tickets {
      SearchingNotLive(e, m, id);
    }
  }

  lemma CreatedCovers(e: Engine, list: seq<TicketId>, now: int)
    requires EarlySane(e) && SessionsSane(e) && Creatable(e, list) && list[0] !in e.sessions
    ensures var e' := Created(e, list, now);
            forall id :: id in e'.status && Live(e'.status[id]) ==> SomeSession(e'.sessions, id)
  {
    hide EarlySane, SessionSane;
    var e' := Created(e, list, now);
    CreatedOthers(e, list, now);
    forall id | id in e'.status && Live(e'.status[id]) ensures SomeSession(e'.sessions, id) {
      if id in list {
        assert id in e'.sessions[list[0]].tickets;
      } else {
        assert SomeSession(e.sessions, id);
        var x :| x in e.sessions && id in e.sessions[x].tickets;
        assert id in e'.sessions[x].tickets;
      }
    }
  }

  lemma CreatedIndex(e: Engine, list: seq<TicketId>, now: int)
    requires IndexSane(e) && Creatable(e, list) && list[0] !in e.sessions
    ensures IndexSane(Created(e, list, now))
  {
    hide Inverse, Claimed, PlayersOf;
    var e' := Created(e, list, now);
    ClaimKeepsInverse(e.index, Rosters(e.sessions), PlayersOf(e.info, list), list[0]);
    assert Rosters(e'.sessions) == Rosters(e.sessions)[list[0] := PlayersOf(e.info, list)];
  }

  lemma CreatedLog(e: Engine, list: seq<TicketId>, now: int)
    requires EarlySane(e) && LogSane(e) && Creatable(e, list)
    ensures LogSane(Created(e, list, now))
  {
    hide EarlySane;
    var e' := Created(e, list, now);
    CreatedKnown(e, list);
    CreatedOthers(e, list, now);
    forall y, q | y in e'.sessions && q in e'.sessions[y].answers
      ensures Answered(e'.log, y, q, e'.sessions[y].answers[q])
    {
      if y == list[0] {
        assert Entry(y, q, true) !in e.log && Entry(y, q, false) !in e.log;
      } else {
        assert Answered(e.log, y, q, e.sessions[y].answers[q]);
      }
    }
  }

  lemma CreatedDone(e: Engine, list: seq<TicketId>, now: int)
    requires EarlySane(e) && DoneSane(e) && CompletedSane(e) && Creatable(e, list)
    ensures DoneSane(Created(e, list, now)) && CompletedSane(Created(e, list, now))
  {
    hide EarlySane, DoneSane, CompletedSane;
    CreatedKnown(e, list);
    CreatedOthers(e, list, now);
    DoneKept(e, Created(e, list, now));
  }

  lemma CreatedSane(e: Engine, list: seq<TicketId>, now: int)
    requires EarlySane(e) && LateSane(e) && Creatable(e, list)
    ensures EarlySane(Created(e, list, now)) && LateSane(Created(e, list, now))
  {
    hide EarlySane, SessionsSane, IndexSane, LogSane, DoneSane, CompletedSane, Created;
    CreatedEarly(e, list, now);
    CreatedSessions(e, list, now);
    CreatedIndex(e, list, now);
    CreatedLog(e, list, now);
    CreatedDone(e, list, now);
  }
}
