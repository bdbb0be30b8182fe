/** What becomes of a session that nobody interferes with, among any other sessions and any jobs left over from
    earlier ones: the job queue at its creation decides, however late the jobs run. */
module SessionOutcome {
  import opened Tickets
  import opened Ordered
  import opened TimedQueue
  import opened Registries
  import opened SessionProtocol
  import opened SessionSafety
  import opened SessionLife
  import opened SessionRuns
  import opened SessionTheorems
  import opened SessionJobs

  // ---------- What a queue holds for a session ----------

  /** The players whose automatic acceptance comes before the session's acceptance timeout. */
  ghost function Served(q: Queue<Job>, m: TicketId): set<PlayerKey> {
    if q == [] || q[0].1 == TimeoutAccept(m) then {}
    else (if q[0].1.AutoAccept? then {q[0].1.player} else {}) + Served(q[1..], m)
  }

  /** Everybody who has not accepted yet is served. */
  ghost predicate AllInTime(q: Queue<Job>, m: TicketId, answers: map<PlayerKey, Answer>) {
    forall p :: p in answers && !answers[p].accepted ==> p in Served(q, m)
  }

  /** The session's completion comes before its placement timeout. */
  ghost predicate CompletesFirst(q: Queue<Job>, m: TicketId) {
    && q != [] && q[0].1 != TimeoutPlace(m)
    && (q[0].1 == Complete(m) || CompletesFirst(q[1..], m))
  }

  ghost predicate HasTimeout(q: Queue<Job>, m: TicketId) {
    Pending(q, TimeoutAccept(m))
  }

  lemma HasTimeoutRest(q: Queue<Job>, m: TicketId)
    ensures q == [] ==> !HasTimeout(q, m)
    ensures q != [] ==> (HasTimeout(q, m) <==> q[0].1 == TimeoutAccept(m) || HasTimeout(q[1..], m))
  {
    if q != [] {
      if HasTimeout(q[1..], m) {
        PoppedPending(q, TimeoutAccept(m));
      }
      if HasTimeout(q, m) && q[0].1 != TimeoutAccept(m) {
        var i :| 0 <= i < |q| && q[i].1 == TimeoutAccept(m);
        assert q[1..][i - 1].1 == TimeoutAccept(m);
      }
    }
  }

  lemma {:induction false} ServedConcat(a: Queue<Job>, b: Queue<Job>, m: TicketId)
    ensures Served(a + b, m) == if HasTimeout(a, m) then Served(a, m) else Served(a, m) + Served(b, m)
  {
    HasTimeoutRest(a, m);
    if a == [] {
      assert a + b == b;
    } else {
      ServedConcat(a[1..], b, m);
      assert (a + b)[1..] == a[1..] + b;
    }
  }

  lemma {:induction false} CompletesConcat(a: Queue<Job>, b: Queue<Job>, m: TicketId)
    ensures CompletesFirst(a + b, m)
       <==> CompletesFirst(a, m) || (!Pending(a, TimeoutPlace(m)) && CompletesFirst(b, m))
  {
    if a == [] {
      assert a + b == b;
    } else {
      CompletesConcat(a[1..], b, m);
      assert (a + b)[1..] == a[1..] + b;
      if Pending(a[1..], TimeoutPlace(m)) {
        PoppedPending(a, TimeoutPlace(m));
      }
      if Pending(a, TimeoutPlace(m)) && a[0].1 != TimeoutPlace(m) {
        var i :| 0 <= i < |a| && a[i].1 == TimeoutPlace(m);
        assert a[1..][i - 1].1 == TimeoutPlace(m);
      }
    }
  }

  /** Where a new job goes, whatever the queue: behind the last job due no later. */
  lemma {:induction false} InsertSplits(q: Queue<Job>, due: int, x: Job) returns (p: nat)
    ensures p <= |q| && Insert(q, due, x) == q[..p] + [(due, x)] + q[p..]
    ensures p > 0 ==> q[p - 1].0 <= due
    ensures forall i :: p <= i < |q| ==> q[i].0 > due
  {
    if q == [] || q[|q| - 1].0 <= due {
      p := |q|;
    } else {
      var front := q[..|q| - 1];
      p := InsertSplits(front, due, x);
      assert q[..p] == front[..p] && q[p..] == front[p..] + [q[|q| - 1]];
    }
  }

  lemma SplitConcat(q: Queue<Job>, p: nat, x: (int, Job), m: TicketId)
    requires p <= |q|
    ensures Served(q, m) == if HasTimeout(q[..p], m) then Served(q[..p], m) else Served(q[..p], m) + Served(q[p..], m)
    ensures Served(q[..p] + [x] + q[p..], m)
         == if HasTimeout(q[..p], m) then Served(q[..p], m)
            else Served(q[..p], m) + Served([x] + q[p..], m)
  {
    assert q == q[..p] + q[p..];
    assert q[..p] + [x] + q[p..] == q[..p] + ([x] + q[p..]);
    ServedConcat(q[..p], q[p..], m);
    ServedConcat(q[..p], [x] + q[p..], m);
  }

  lemma ServedHead(x: (int, Job), q: Queue<Job>, m: TicketId)
    ensures Served([x] + q, m)
         == if x.1 == TimeoutAccept(m) then {} else (if x.1.AutoAccept? then {x.1.player} else {}) + Served(q, m)
  {
    assert ([x] + q)[1..] == q;
  }

  /** Jobs of placed sessions serve nobody and hinder nobody. */
  lemma ServedKept(q: Queue<Job>, due: int, x: Job, m: TicketId)
    requires x.TimeoutPlace? || x.Complete?
    ensures Served(Insert(q, due, x), m) == Served(q, m)
  {
    hide Served, Insert, HasTimeout;
    var p := InsertSplits(q, due, x);
    SplitConcat(q, p, (due, x), m);
    ServedHead((due, x), q[p..], m);
  }

  lemma CompletesKept(q: Queue<Job>, due: int, x: Job, m: TicketId)
    requires x != TimeoutPlace(m) && CompletesFirst(q, m)
    ensures CompletesFirst(Insert(q, due, x), m)
  {
    hide Insert, CompletesFirst, Pending;
    var p := InsertSplits(q, due, x);
    var a, b := q[..p], q[p..];
    assert q == a + b;
    assert a + [(due, x)] + b == a + ([(due, x)] + b);
    CompletesConcat(a, b, m);
    CompletesConcat(a, [(due, x)] + b, m);
    CompletesHead((due, x), b, m);
  }

  lemma CompletesHead(x: (int, Job), q: Queue<Job>, m: TicketId)
    ensures CompletesFirst([x] + q, m) <==> x.1 == Complete(m) || (x.1 != TimeoutPlace(m) && CompletesFirst(q, m))
  {
    assert ([x] + q)[1..] == q;
  }

  lemma PrefixPending(q: Queue<Job>, r: nat, j: Job)
    requires r <= |q| && Pending(q[..r], j)
    ensures Pending(q, j)
  {
    var i :| 0 <= i < |q[..r]| && q[..r][i].1 == j;
    assert q[i].1 == j;
  }

  /** The completion is booked ahead of the placement timeout, though after it. */
  lemma PlaceJobsSplit(q: Queue<Job>, m: TicketId, now: int) returns (r: nat, rest: Queue<Job>)
    ensures r <= |q| && PlaceJobs(q, m, now) == q[..r] + ([(now + COMPLETION_DELAY_MSEC, Complete(m))] + rest)
  {
    var p := InsertSplits(q, now + PLACE_TIMEOUT_MSEC, TimeoutPlace(m));
    var q1 := Insert(q, now + PLACE_TIMEOUT_MSEC, TimeoutPlace(m));
    r := InsertSplits(q1, now + COMPLETION_DELAY_MSEC, Complete(m));
    forall i | p <= i < |q1| ensures q1[i].0 > now + COMPLETION_DELAY_MSEC {
      assert q1[i] == if i == p then (now + PLACE_TIMEOUT_MSEC, TimeoutPlace(m)) else q[i - 1];
    }
    assert q1[..r] == q[..r];
    rest := q1[r..];
  }

  lemma PlacedCompletes(q: Queue<Job>, m: TicketId, now: int)
    requires !Pending(q, TimeoutPlace(m))
    ensures CompletesFirst(PlaceJobs(q, m, now), m)
  {
    hide PlaceJobs, CompletesFirst, Pending;
    var r, rest := PlaceJobsSplit(q, m, now);
    var x := (now + COMPLETION_DELAY_MSEC, Complete(m));
    CompletesHead(x, rest, m);
    CompletesConcat(q[..r], [x] + rest, m);
    assert !Pending(q[..r], TimeoutPlace(m)) by {
      if Pending(q[..r], TimeoutPlace(m)) {
        PrefixPending(q, r, TimeoutPlace(m));
      }
    }
  }

  // ---------- One job of a drain ----------

  /** The next job can neither end nor answer session m. */
  ghost predicate Passes(e: Engine, m: TicketId)
    requires m in e.sessions && e.jobs != []
  {
    match e.jobs[0].1
    case TimeoutAccept(x) => x != m || !e.sessions[m].status.RequiresAcceptance?
    case AutoAccept(p) => !Counts(e, p) || e.index[p] != m
    case TimeoutPlace(x) => x != m || !e.sessions[m].status.Placing?
    case Complete(x) => x != m
  }

  /** Then it leaves the session alone, and can at most book the placement of another. */
  lemma JobPasses(e: Engine, now: int, ok: bool, m: TicketId) returns (x: TicketId)
    requires Core(e) && m in e.sessions && e.jobs != [] && Passes(e, m)
    ensures var e' := AfterJob(e, now, ok);
            && m in e'.sessions && e'.sessions[m] == e.sessions[m]
            && x != m && (e'.jobs == e.jobs[1..] || e'.jobs == PlaceJobs(e.jobs[1..], x, now))
  {
    hide EarlySane, LateSane, AfterAnswer, AfterTimeout, AfterComplete, Released, SetAll, PlaceJobs;
    var e1 := e.(jobs := e.jobs[1..]);
    HistoryDiffers(e, e1);
    x := m + 1;
    match e.jobs[0].1
    case TimeoutAccept(y) => TimeoutIs(e1, y, RequiresAcceptance);
    case AutoAccept(p) =>
      AnswerMeans(e1, p, true, now);
      if Counts(e1, p) {
        x := e.index[p];
      }
    case TimeoutPlace(y) => TimeoutIs(e1, y, Placing);
    case Complete(y) => CompleteIs(e1, y, true, ok);
  }

  // ---------- Drains ----------

  /** Whatever the zone manager answers, it answers the same about one session throughout. */
  ghost predicate ZonesAs(es: seq<Engine>, steps: seq<Step>, zoneOk: TicketId -> bool)
    requires IsDrain(es, steps)
  {
    forall i :: 0 <= i < |steps| ==>
      es[i].jobs != [] && (es[i].jobs[0].1.Complete? ==> steps[i].zoneOk == zoneOk(es[i].jobs[0].1.session))
  }

  lemma DrainStep(es: seq<Engine>, steps: seq<Step>, i: nat)
    requires IsDrain(es, steps) && i < |steps|
    ensures es[i].jobs != [] && steps[i].RunJob? && Enabled(es[i], steps[i]) && es[i + 1] == Apply(es[i], steps[i])
    ensures es[i + 1] == AfterJob(es[i], steps[i].now, steps[i].zoneOk)
  {
  }

  lemma DrainLength(es: seq<Engine>, steps: seq<Step>)
    requires IsDrain(es, steps)
    ensures |es| == |steps| + 1
  {
  }

  lemma {:induction false} DrainStaysSane(es: seq<Engine>, steps: seq<Step>, i: nat)
    requires IsDrain(es, steps) && i < |es| && EngineSane(es[0]) && JobsNamed(es[0])
    ensures EngineSane(es[i]) && Core(es[i]) && JobsNamed(es[i])
  {
    hide EngineSane, Core, JobsNamed, IsDrain;
    DrainLength(es, steps);
    if i > 0 {
      DrainStaysSane(es, steps, i - 1);
      DrainStep(es, steps, i - 1);
      StepStaysSane(es[i - 1], steps[i - 1]);
      StepStaysNamed(es[i - 1], steps[i - 1]);
    }
    SaneIsCore(es[i]);
  }

  /** All the tickets have this status. */
  ghost predicate AllAre(e: Engine, ids: seq<TicketId>, s: Status) {
    forall id :: id in ids ==> id in e.status && e.status[id] == s
  }

  lemma StepKeepsAre(e: Engine, step: Step, ids: seq<TicketId>, s: Status)
    requires EngineSane(e) && Enabled(e, step) && AllAre(e, ids, s) && Terminal(s)
    ensures AllAre(Apply(e, step), ids, s)
  {
    hide EngineSane, Apply, Enabled;
    forall id | id in ids ensures id in Apply(e, step).status && Apply(e, step).status[id] == s {
      StepFollowsTable(e, step, id);
    }
  }

  lemma {:induction false} EndedStays(es: seq<Engine>, steps: seq<Step>, i: nat, j: nat, ids: seq<TicketId>, s: Status)
    requires IsDrain(es, steps) && i <= j < |es| && EngineSane(es[0]) && JobsNamed(es[0])
    requires Terminal(s) && AllAre(es[i], ids, s)
    ensures AllAre(es[j], ids, s)
  {
    hide EngineSane, Core, JobsNamed, IsDrain, Apply, Enabled, AllAre, AfterJob, Terminal;
    DrainLength(es, steps);
    if i < j {
      EndedStays(es, steps, i, j - 1, ids, s);
      DrainStaysSane(es, steps, j - 1);
      DrainStep(es, steps, j - 1);
      StepKeepsAre(es[j - 1], steps[j - 1], ids, s);
    }
  }

  lemma DroppedAre(e: Engine, m: TicketId, s: Status)
    requires Core(e) && m in e.sessions
    ensures AllAre(Dropped(e, m, s), e.sessions[m].tickets, s)
  {
    LiveTickets(e, m);
  }

  ghost function ZoneOutcome(m: TicketId, zoneOk: TicketId -> bool): Status {
    if zoneOk(m) then Completed else Failed
  }

  // ---------- A placed session ----------

  lemma CompletionEnds(e: Engine, m: TicketId, now: int, ok: bool)
    requires Core(e) && e.jobs != [] && e.jobs[0].1 == Complete(m) && m in e.sessions && e.sessions[m].status.Placing?
    ensures AllAre(AfterJob(e, now, ok), e.sessions[m].tickets, if ok then Completed else Failed)
  {
    hide EarlySane, LateSane, Dropped, AllAre;
    var e1 := e.(jobs := e.jobs[1..]);
    HistoryDiffers(e, e1);
    CompleteIs(e1, m, true, ok);
    DroppedAre(e1, m, if ok then Completed else Failed);
    if ok {
      SameTickets(Dropped(e1, m, Completed), AfterJob(e, now, ok), e.sessions[m].tickets, Completed);
    }
  }

  lemma SameTickets(e: Engine, e': Engine, ids: seq<TicketId>, s: Status)
    requires AllAre(e, ids, s) && e'.status == e.status
    ensures AllAre(e', ids, s)
  {
  }

  /** Any job but its own completion leaves a placed session placed, with its completion still ahead. */
  lemma PlacedGoesOn(e: Engine, m: TicketId, now: int, ok: bool)
    requires Core(e) && m in e.sessions && e.sessions[m].status.Placing?
    requires CompletesFirst(e.jobs, m) && e.jobs[0].1 != Complete(m)
    ensures var e' := AfterJob(e, now, ok);
            m in e'.sessions && e'.sessions[m] == e.sessions[m] && CompletesFirst(e'.jobs, m)
  {
    assert CompletesFirst(e.jobs[1..], m);
    assert Passes(e, m);
    hide Core, AfterJob, CompletesFirst, Insert;
    var x := JobPasses(e, now, ok, m);
    CompletesKept(e.jobs[1..], now + PLACE_TIMEOUT_MSEC, TimeoutPlace(x), m);
    CompletesKept(Insert(e.jobs[1..], now + PLACE_TIMEOUT_MSEC, TimeoutPlace(x)), now + COMPLETION_DELAY_MSEC,
                  Complete(x), m);
  }

  lemma {:induction false} PlacedEnds(es: seq<Engine>, steps: seq<Step>, i: nat, m: TicketId, zoneOk: TicketId -> bool)
    requires IsDrain(es, steps) && ZonesAs(es, steps, zoneOk) && EngineSane(es[0]) && JobsNamed(es[0])
    requires i < |es| && es[|steps|].jobs == []
    requires m in es[i].sessions && es[i].sessions[m].status.Placing? && CompletesFirst(es[i].jobs, m)
    ensures AllAre(es[|steps|], es[i].sessions[m].tickets, ZoneOutcome(m, zoneOk))
    decreases |steps| - i
  {
    hide EngineSane, Core, JobsNamed, IsDrain, Apply, Enabled, AfterJob, AllAre;
    DrainLength(es, steps);
    DrainStaysSane(es, steps, i);
    DrainStep(es, steps, i);
    if es[i].jobs[0].1 == Complete(m) {
      CompletionEnds(es[i], m, steps[i].now, steps[i].zoneOk);
      EndedStays(es, steps, i + 1, |steps|, es[i].sessions[m].tickets, ZoneOutcome(m, zoneOk));
    } else {
      PlacedGoesOn(es[i], m, steps[i].now, steps[i].zoneOk);
      PlacedEnds(es, steps, i + 1, m, zoneOk);
    }
  }

  // ---------- A session that is asking ----------

  ghost predicate Asks(e: Engine, m: TicketId) {
    m in e.sessions && e.sessions[m].status.RequiresAcceptance?
  }

  /** An asking session has no jobs of a placed one. */
  lemma AskingJobs(e: Engine, m: TicketId)
    requires SessionsSane(e) && JobsNamed(e) && Asks(e, m)
    ensures !Pending(e.jobs, TimeoutPlace(m)) && !Pending(e.jobs, Complete(m))
  {
    hide Pending;
    LiveTickets(e, m);
    assert Pending(e.jobs, TimeoutPlace(m)) ==> JobNamed(e.status, TimeoutPlace(m));
    assert Pending(e.jobs, Complete(m)) ==> JobNamed(e.status, Complete(m));
  }

  lemma TimeoutEnds(e: Engine, m: TicketId, now: int, ok: bool)
    requires Core(e) && e.jobs != [] && e.jobs[0].1 == TimeoutAccept(m) && Asks(e, m)
    ensures AllAre(AfterJob(e, now, ok), e.sessions[m].tickets, TimedOut)
  {
    hide EarlySane, LateSane, Dropped, AllAre;
    var e1 := e.(jobs := e.jobs[1..]);
    HistoryDiffers(e, e1);
    TimeoutIs(e1, m, RequiresAcceptance);
    DroppedAre(e1, m, TimedOut);
  }

  /** The timeout comes first: somebody is late. */
  lemma TimeoutFirst(e: Engine, m: TicketId)
    requires Core(e) && e.jobs != [] && e.jobs[0].1 == TimeoutAccept(m) && Asks(e, m)
    ensures !AllInTime(e.jobs, m, e.sessions[m].answers)
  {
    assert SessionSane(e.info, e.status, m, e.sessions[m]);
    assert Served(e.jobs, m) == {};
  }

  /** The next job is an acceptance that counts for session m. */
  lemma AskingAnswered(e: Engine, m: TicketId, now: int, ok: bool)
    requires Core(e) && JobsNamed(e) && Asks(e, m) && e.jobs != []
    requires e.jobs[0].1.AutoAccept? && Counts(e, e.jobs[0].1.player) && e.index[e.jobs[0].1.player] == m
    ensures var e', p := AfterJob(e, now, ok), e.jobs[0].1.player;
            && m in e'.sessions && e'.sessions[m] == Accepted(e.sessions[m], p)
            && (if e'.sessions[m].status.Placing? then CompletesFirst(e'.jobs, m) else e'.jobs == e.jobs[1..])
  {
    var e1, p := e.(jobs := e.jobs[1..]), e.jobs[0].1.player;
    AskingJobs(e, m);
    if Pending(e1.jobs, TimeoutPlace(m)) {
      PoppedPending(e.jobs, TimeoutPlace(m));
    }
    hide EarlySane, LateSane, AfterAnswer, PlaceJobs, CompletesFirst, Pending;
    HistoryDiffers(e, e1);
    AnswerMeans(e1, p, true, now);
    PlacedCompletes(e1.jobs, m, now);
  }

  lemma AnsweredInTime(q: Queue<Job>, m: TicketId, s: Session, p: PlayerKey)
    requires q != [] && q[0].1 == AutoAccept(p)
    ensures AllInTime(q, m, s.answers) <==> AllInTime(q[1..], m, WithAnswer(s, p).answers)
    ensures AllAccepted(WithAnswer(s, p)) ==> AllInTime(q, m, s.answers)
  {
    var answers := WithAnswer(s, p).answers;
    assert Served(q, m) == {p} + Served(q[1..], m);
    forall x | x in s.answers && x != p ensures x in answers && answers[x] == s.answers[x] {
    }
    assert p in answers && answers[p].accepted;
  }

  /** Any other job that is not the timeout leaves the session asking, with as many still in time. */
  lemma AskingGoesOn(e: Engine, m: TicketId, now: int, ok: bool)
    requires Core(e) && JobsNamed(e) && Asks(e, m) && e.jobs != [] && Passes(e, m)
    ensures var e' := AfterJob(e, now, ok);
            && m in e'.sessions && e'.sessions[m] == e.sessions[m]
            && (AllInTime(e'.jobs, m, e.sessions[m].answers) <==> AllInTime(e.jobs, m, e.sessions[m].answers))
  {
    LateAcceptance(e, m);
    hide Core, AfterJob, Insert, Served, JobsNamed, Counts;
    var x := JobPasses(e, now, ok, m);
    var rest := e.jobs[1..];
    ServedKept(rest, now + PLACE_TIMEOUT_MSEC, TimeoutPlace(x), m);
    ServedKept(Insert(rest, now + PLACE_TIMEOUT_MSEC, TimeoutPlace(x)), now + COMPLETION_DELAY_MSEC, Complete(x), m);
  }

  /** Whoever the next job serves without counting has accepted already, or is of another session. */
  lemma LateAcceptance(e: Engine, m: TicketId)
    requires Core(e) && Asks(e, m) && e.jobs != [] && Passes(e, m)
    ensures AllInTime(e.jobs[1..], m, e.sessions[m].answers) <==> AllInTime(e.jobs, m, e.sessions[m].answers)
  {
    hide EarlySane, IndexSane, LogSane, DoneSane, CompletedSane, SessionsSane;
    var answers := e.sessions[m].answers;
    if e.jobs[0].1.AutoAccept? && e.jobs[0].1.player in answers {
      CountsOrAccepted(e, m, e.jobs[0].1.player);
    }
  }

  lemma CountsOrAccepted(e: Engine, m: TicketId, p: PlayerKey)
    requires Core(e) && Asks(e, m) && p in e.sessions[m].answers
    ensures p in e.index && e.index[p] == m
    ensures !Counts(e, p) ==> e.sessions[m].answers[p].accepted
  {
    assert SessionSane(e.info, e.status, m, e.sessions[m]);
    var rosters := Rosters(e.sessions);
    assert m in rosters && p in rosters[m];
  }

  /** A session that is asking, left to the job queue: it is placed, and completes if its zone registers and
      fails otherwise, if and only if an acceptance of everybody still asked comes before its timeout in the
      queue. It does not matter what else is in the queue, nor how late the jobs run. */
  lemma {:induction false} AskingEnds(es: seq<Engine>, steps: seq<Step>, i: nat, m: TicketId, zoneOk: TicketId -> bool)
    requires IsDrain(es, steps) && ZonesAs(es, steps, zoneOk) && EngineSane(es[0]) && JobsNamed(es[0])
    requires i < |es| && es[|steps|].jobs == [] && Asks(es[i], m)
    ensures AllAre(es[|steps|], es[i].sessions[m].tickets,
                   if AllInTime(es[i].jobs, m, es[i].sessions[m].answers) then ZoneOutcome(m, zoneOk) else TimedOut)
    decreases |steps| - i
  {
    hide EngineSane, Core, JobsNamed, IsDrain, Apply, Enabled, AfterJob, AllAre, AllInTime, Passes, CompletesFirst;
    DrainLength(es, steps);
    DrainStaysSane(es, steps, i);
    AskingHasJob(es[i], m);
    DrainStep(es, steps, i);
    var e, now, ok := es[i], steps[i].now, steps[i].zoneOk;
    if e.jobs[0].1 == TimeoutAccept(m) {
      TimeoutFirst(e, m);
      TimeoutEnds(e, m, now, ok);
      EndedStays(es, steps, i + 1, |steps|, e.sessions[m].tickets, TimedOut);
    } else if e.jobs[0].1.AutoAccept? && Counts(e, e.jobs[0].1.player) && e.index[e.jobs[0].1.player] == m {
      AskingAnswered(e, m, now, ok);
      AnsweredInTime(e.jobs, m, e.sessions[m], e.jobs[0].1.player);
      if es[i + 1].sessions[m].status.Placing? {
        PlacedEnds(es, steps, i + 1, m, zoneOk);
      } else {
        AskingEnds(es, steps, i + 1, m, zoneOk);
      }
    } else {
      OtherJobPasses(e, m);
      AskingGoesOn(e, m, now, ok);
      AskingEnds(es, steps, i + 1, m, zoneOk);
    }
  }

  lemma AskingHasJob(e: Engine, m: TicketId)
    requires EngineSane(e) && Asks(e, m)
    ensures e.jobs != []
  {
    SessionHasJob(e, m);
  }

  lemma OtherJobPasses(e: Engine, m: TicketId)
    requires Core(e) && JobsNamed(e) && Asks(e, m) && e.jobs != [] && e.jobs[0].1 != TimeoutAccept(m)
    requires !(e.jobs[0].1.AutoAccept? && Counts(e, e.jobs[0].1.player) && e.index[e.jobs[0].1.player] == m)
    ensures Passes(e, m)
  {
    hide EarlySane, IndexSane, LogSane, DoneSane, CompletedSane, SessionsSane, JobsNamed;
    AskingJobs(e, m);
    assert e.jobs[0].1 == Complete(m) ==> Pending(e.jobs, Complete(m));
  }

  // ---------- The queue a session starts with ----------

  /** How many players are asked before the acceptance timeout. */
  const ASKED_IN_TIME: nat := 59

  ghost function InTime(players: seq<PlayerKey>): seq<PlayerKey> {
    if |players| <= ASKED_IN_TIME then players else players[..ASKED_IN_TIME]
  }

  /** The session's one acceptance timeout is booked for the given time. */
  ghost predicate TimeoutAt(q: Queue<Job>, m: TicketId, t: nat, due: int) {
    && InOrder(q) && t < |q| && q[t] == (due, TimeoutAccept(m))
    && forall i :: 0 <= i < |q| && i != t ==> q[i].1 != TimeoutAccept(m)
  }

  /** Everybody whose acceptance waits in the queue. */
  ghost function Accepting(q: Queue<Job>): set<PlayerKey> {
    set i | 0 <= i < |q| && q[i].1.AutoAccept? :: q[i].1.player
  }

  lemma {:induction false} ServedIsAccepting(q: Queue<Job>, m: TicketId)
    requires !HasTimeout(q, m)
    ensures Served(q, m) == Accepting(q)
  {
    HasTimeoutRest(q, m);
    if q != [] {
      ServedIsAccepting(q[1..], m);
      assert q == [q[0]] + q[1..];
    }
  }

  lemma TimeoutStays(q: Queue<Job>, m: TicketId, t: nat, due: int, k: nat, x: (int, Job), q': Queue<Job>)
    requires TimeoutAt(q, m, t, due) && k <= |q| && x.1.AutoAccept?
    requires q' == q[..k] + [x] + q[k..] && InOrder(q')
    ensures TimeoutAt(q', m, if k <= t then t + 1 else t, due)
  {
  }

  lemma TimeoutInFront(q: Queue<Job>, m: TicketId, t: nat, due: int, k: nat)
    requires TimeoutAt(q, m, t, due) && k <= |q|
    ensures HasTimeout(q[..k], m) <==> t < k
  {
    if t < k {
      assert q[..k][t].1 == TimeoutAccept(m);
    }
  }

  /** A job booked for before the timeout goes ahead of it, any other behind it. */
  lemma TimeoutMoves(q: Queue<Job>, m: TicketId, t: nat, due: int, at: int, p: PlayerKey) returns (t': nat)
    requires TimeoutAt(q, m, t, due)
    ensures TimeoutAt(Insert(q, at, AutoAccept(p)), m, t', due)
    ensures Served(Insert(q, at, AutoAccept(p)), m) == if at < due then Served(q, m) + {p} else Served(q, m)
  {
    var k := InsertSplits(q, at, AutoAccept(p));
    assert t < k <==> due <= at;
    InsertKeepsAll(q, at, AutoAccept(p));
    hide Served, Insert, InOrder, HasTimeout;
    TimeoutStays(q, m, t, due, k, (at, AutoAccept(p)), Insert(q, at, AutoAccept(p)));
    t' := if k <= t then t + 1 else t;
    hide TimeoutAt;
    TimeoutInFront(q, m, t, due, k);
    SplitConcat(q, k, (at, AutoAccept(p)), m);
    ServedHead((at, AutoAccept(p)), q[k..], m);
  }

  lemma InTimeOneMore(players: seq<PlayerKey>)
    requires players != []
    ensures var front, p := players[..|players| - 1], players[|players| - 1];
            ToSet(InTime(players)) == ToSet(InTime(front)) + (if |players| <= ASKED_IN_TIME then {p} else {})
  {
    var front, p := players[..|players| - 1], players[|players| - 1];
    if |players| <= ASKED_IN_TIME {
      assert players == front + [p];
    } else {
      assert InTime(players) == InTime(front);
    }
  }

  /** The automatic acceptances serve the first 59 of the players, and nobody else. */
  lemma {:induction false} AskedInTime(q: Queue<Job>, m: TicketId, t: nat, now: int, players: seq<PlayerKey>)
    returns (t': nat)
    requires TimeoutAt(q, m, t, now + ACCEPT_TIMEOUT_MSEC)
    ensures TimeoutAt(AutoAccepts(q, now, players), m, t', now + ACCEPT_TIMEOUT_MSEC)
    ensures Served(AutoAccepts(q, now, players), m) == Served(q, m) + ToSet(InTime(players))
  {
    hide Served, Insert, InTime, TimeoutAt, ToSet;
    if players == [] {
      NobodyInTime();
      t' := t;
    } else {
      var front, k := players[..|players| - 1], |players|;
      var s := AskedInTime(q, m, t, now, front);
      var at := now + AUTO_ACCEPT_DELAY_MSEC * k;
      assert at < now + ACCEPT_TIMEOUT_MSEC <==> k <= ASKED_IN_TIME;
      t' := TimeoutMoves(AutoAccepts(q, now, front), m, s, now + ACCEPT_TIMEOUT_MSEC, at, players[k - 1]);
      InTimeOneMore(players);
    }
  }

  lemma NobodyInTime()
    ensures ToSet(InTime([])) == {}
  {
  }

  /** Whether an acceptance of this player left over from an earlier session falls due no later. */
  ghost predicate LeftOver(q: Queue<Job>, p: PlayerKey, due: int) {
    exists i :: 0 <= i < |q| && q[i].0 <= due && q[i].1 == AutoAccept(p)
  }

  /** The timeout is booked behind every acceptance left over that falls due no later. */
  lemma BookedTimeout(q: Queue<Job>, m: TicketId, due: int) returns (t: nat)
    requires InOrder(q) && !HasTimeout(q, m)
    ensures TimeoutAt(Insert(q, due, TimeoutAccept(m)), m, t, due)
    ensures forall p :: p in Served(Insert(q, due, TimeoutAccept(m)), m) <==> LeftOver(q, p, due)
  {
    t := InsertSplits(q, due, TimeoutAccept(m));
    InsertKeepsAll(q, due, TimeoutAccept(m));
    NoTimeoutBefore(q, m, t);
    NewTimeoutAt(q, m, t, due, Insert(q, due, TimeoutAccept(m)));
    hide Served, Insert, HasTimeout, TimeoutAt, LeftOver, InOrder;
    SplitConcat(q, t, (due, TimeoutAccept(m)), m);
    ServedHead((due, TimeoutAccept(m)), q[t..], m);
    ServedIsAccepting(q[..t], m);
    forall p ensures p in Accepting(q[..t]) <==> LeftOver(q, p, due) {
      AcceptingIsLeftOver(q, t, p, due);
    }
  }

  lemma NoTimeoutBefore(q: Queue<Job>, m: TicketId, t: nat)
    requires !HasTimeout(q, m) && t <= |q|
    ensures !HasTimeout(q[..t], m)
  {
    if HasTimeout(q[..t], m) {
      PrefixPending(q, t, TimeoutAccept(m));
    }
  }

  lemma NewTimeoutAt(q: Queue<Job>, m: TicketId, t: nat, due: int, q': Queue<Job>)
    requires !HasTimeout(q, m) && t <= |q| && q' == q[..t] + [(due, TimeoutAccept(m))] + q[t..] && InOrder(q')
    ensures TimeoutAt(q', m, t, due)
  {
    forall i | 0 <= i < |q'| && i != t ensures q'[i].1 != TimeoutAccept(m) {
      assert q'[i] == if i < t then q[i] else q[i - 1];
    }
  }

  lemma AcceptingIsLeftOver(q: Queue<Job>, t: nat, p: PlayerKey, due: int)
    requires InOrder(q) && t <= |q| && (t > 0 ==> q[t - 1].0 <= due) && forall i :: t <= i < |q| ==> q[i].0 > due
    ensures p in Accepting(q[..t]) <==> LeftOver(q, p, due)
  {
    if p in Accepting(q[..t]) {
      var i :| 0 <= i < |q[..t]| && q[..t][i].1.AutoAccept? && q[..t][i].1.player == p;
      assert q[i].0 <= q[t - 1].0;
      assert q[i].1 == AutoAccept(p);
    }
    if LeftOver(q, p, due) {
      var i :| 0 <= i < |q| && q[i].0 <= due && q[i].1 == AutoAccept(p);
      assert q[..t][i].1 == AutoAccept(p);
    }
  }

  // ---------- From the match to the end ----------

  /** The players asked too late by the session's own acceptances have one left over that comes in time. */
  ghost predicate EverybodyInTime(e: Engine, list: seq<TicketId>, now: int) {
    forall k :: ASKED_IN_TIME <= k < |Roster(e.info, list)| ==>
      LeftOver(e.jobs, Roster(e.info, list)[k], now + ACCEPT_TIMEOUT_MSEC)
  }

  lemma StartServes(e: Engine, list: seq<TicketId>, now: int)
    requires InOrder(e.jobs) && list != [] && !HasTimeout(e.jobs, list[0])
    ensures forall p :: p in Served(AcceptJobs(e, list, now), list[0])
              <==> LeftOver(e.jobs, p, now + ACCEPT_TIMEOUT_MSEC) || p in InTime(Roster(e.info, list))
  {
    hide Served, Insert, TimeoutAt, LeftOver, InTime, Roster, HasTimeout;
    var t := BookedTimeout(e.jobs, list[0], now + ACCEPT_TIMEOUT_MSEC);
    var t' := AskedInTime(Insert(e.jobs, now + ACCEPT_TIMEOUT_MSEC, TimeoutAccept(list[0])), list[0], t, now,
                          Roster(e.info, list));
  }

  lemma ServedEverybody(e: Engine, list: seq<TicketId>, now: int, served: set<PlayerKey>)
    requires NoDuplicates(Roster(e.info, list))
    requires forall p :: p in served
               <==> LeftOver(e.jobs, p, now + ACCEPT_TIMEOUT_MSEC) || p in InTime(Roster(e.info, list))
    ensures (forall p :: p in Roster(e.info, list) ==> p in served) <==> EverybodyInTime(e, list, now)
  {
    var roster := Roster(e.info, list);
    forall k | ASKED_IN_TIME <= k < |roster| ensures roster[k] !in InTime(roster) {
    }
    forall k | 0 <= k < |roster| && k < ASKED_IN_TIME ensures roster[k] in InTime(roster) {
      assert InTime(roster)[k] == roster[k];
    }
    if forall p :: p in roster ==> p in served {
      forall k | ASKED_IN_TIME <= k < |roster| ensures LeftOver(e.jobs, roster[k], now + ACCEPT_TIMEOUT_MSEC) {
        assert roster[k] in roster;
      }
    }
  }

  lemma RosterFacts(e: Engine, list: seq<TicketId>)
    requires EarlySane(e) && list in e.flight
    ensures list != [] && NoDuplicates(Roster(e.info, list)) && ToSet(Roster(e.info, list)) == PlayersOf(e.info, list)
    ensures forall id :: id in list ==> id in e.status && e.status[id].Searching?
  {
    FlightList(e, list);
    FlightApart(e, list);
    RosterApart(e.info, list);
  }

  lemma CreatedAsks(e: Engine, list: seq<TicketId>, now: int)
    requires list != []
    ensures var e', m := Created(e, list, now), list[0];
            && Asks(e', m) && e'.sessions[m].tickets == list && e'.jobs == AcceptJobs(e, list, now)
            && (AllInTime(e'.jobs, m, e'.sessions[m].answers)
                <==> forall p :: p in PlayersOf(e.info, list) ==> p in Served(e'.jobs, m))
  {
    hide PlayersOf, Served, AcceptJobs;
    var answers := Created(e, list, now).sessions[list[0]].answers;
    assert answers == Blank(e.info, list);
    forall p | p in answers ensures !answers[p].accepted && p in PlayersOf(e.info, list) {
    }
  }

  lemma NoTimeoutYet(e: Engine, m: TicketId)
    requires JobsNamed(e) && m in e.status && Stage(e.status[m]) < 3
    ensures !HasTimeout(e.jobs, m) && InOrder(e.jobs)
  {
    hide Pending;
    assert Pending(e.jobs, TimeoutAccept(m)) ==> JobNamed(e.status, TimeoutAccept(m));
  }

  /** A match that becomes a session, and is then left to the job queue, in any state the engine can be in: if
      everybody has an automatic acceptance in time it is placed, and completes if its zone registers and fails
      otherwise; if not, its acceptance times out. The first 59 players have one of their own. From the 60th on
      it must be left over from an earlier session, for an acceptance names its player only. */
  lemma CreatedSessionOutcome(e: Engine, list: seq<TicketId>, now: int, es: seq<Engine>, steps: seq<Step>,
                              zoneOk: TicketId -> bool)
    requires EngineSane(e) && JobsNamed(e) && list in e.flight && PlayersOf(e.info, list) !! e.index.Keys
    requires IsDrain(es, steps) && es[0] == AfterCreate(e.(flight := e.flight - {list}), list, now, true)
    requires ZonesAs(es, steps, zoneOk) && es[|steps|].jobs == []
    ensures list != []
    ensures AllAre(es[|steps|], list, if EverybodyInTime(e, list, now) then ZoneOutcome(list[0], zoneOk) else TimedOut)
  {
    hide EngineSane, Core, JobsNamed, AllAre, AllInTime, EverybodyInTime, IsDrain, ZonesAs, Created, Asks, AfterCreate,
         Served, LeftOver, InTime, Roster, PlayersOf, HasTimeout;
    DrainLength(es, steps);
    CreatedIs(e, list, now);
    CreatedAsks(e, list, now);
    StartServes(e, list, now);
    RosterMembers(Roster(e.info, list), PlayersOf(e.info, list));
    ServedEverybody(e, list, now, Served(AcceptJobs(e, list, now), list[0]));
    AskingEnds(es, steps, 0, list[0], zoneOk);
  }

  lemma RosterMembers(roster: seq<PlayerKey>, players: set<PlayerKey>)
    requires ToSet(roster) == players
    ensures forall p :: p in roster <==> p in players
  {
    forall p ensures p in roster <==> p in players {
      assert p in roster <==> p in ToSet(roster);
    }
  }

  lemma CreatedIs(e: Engine, list: seq<TicketId>, now: int)
    requires EngineSane(e) && JobsNamed(e) && list in e.flight && PlayersOf(e.info, list) !! e.index.Keys
    ensures list != [] && InOrder(e.jobs) && !HasTimeout(e.jobs, list[0])
    ensures NoDuplicates(Roster(e.info, list)) && ToSet(Roster(e.info, list)) == PlayersOf(e.info, list)
    ensures var e' := AfterCreate(e.(flight := e.flight - {list}), list, now, true);
            e' == Created(e, list, now) && EngineSane(e') && JobsNamed(e')
  {
    hide EngineSane, JobsNamed, AfterCreate, Created, Roster, PlayersOf, LateSane, HasTimeout;
    SaneIsCore(e);
    RosterFacts(e, list);
    NoTimeoutYet(e, list[0]);
    CreateIs(e, list, now, true);
    CreateStays(e, list, now);
  }

  lemma CreateStays(e: Engine, list: seq<TicketId>, now: int)
    requires EngineSane(e) && JobsNamed(e) && list in e.flight
    ensures var e' := AfterCreate(e.(flight := e.flight - {list}), list, now, true); EngineSane(e') && JobsNamed(e')
  {
    hide EngineSane, JobsNamed;
    StepStaysSane(e, Create(list, now, true));
    StepStaysNamed(e, Create(list, now, true));
  }

  /** With nothing left over for its players, a session of 60 or more always times out, and a smaller one never
      does. */
  lemma UntouchedSessionOutcome(e: Engine, list: seq<TicketId>, now: int, es: seq<Engine>, steps: seq<Step>,
                                zoneOk: TicketId -> bool)
    requires EngineSane(e) && JobsNamed(e) && list in e.flight && PlayersOf(e.info, list) !! e.index.Keys
    requires forall p :: p in PlayersOf(e.info, list) ==> !Pending(e.jobs, AutoAccept(p))
    requires IsDrain(es, steps) && es[0] == AfterCreate(e.(flight := e.flight - {list}), list, now, true)
    requires ZonesAs(es, steps, zoneOk) && es[|steps|].jobs == []
    ensures list != []
    ensures AllAre(es[|steps|], list,
                   if |PlayersOf(e.info, list)| >= 60 then TimedOut else ZoneOutcome(list[0], zoneOk))
  {
    hide EngineSane, JobsNamed, AllAre, EverybodyInTime, IsDrain, ZonesAs, AfterCreate, Roster, PlayersOf, HasTimeout;
    CreatedSessionOutcome(e, list, now, es, steps, zoneOk);
    CreatedIs(e, list, now);
    DistinctSize(Roster(e.info, list));
    NobodyLeftOver(e, list, now);
  }

  lemma NobodyLeftOver(e: Engine, list: seq<TicketId>, now: int)
    requires ToSet(Roster(e.info, list)) == PlayersOf(e.info, list)
    requires forall p :: p in PlayersOf(e.info, list) ==> !Pending(e.jobs, AutoAccept(p))
    ensures EverybodyInTime(e, list, now) <==> |Roster(e.info, list)| <= ASKED_IN_TIME
  {
    hide PlayersOf, Roster;
    var roster := Roster(e.info, list);
    if |roster| > ASKED_IN_TIME {
      assert roster[ASKED_IN_TIME] in ToSet(roster);
      assert !LeftOver(e.jobs, roster[ASKED_IN_TIME], now + ACCEPT_TIMEOUT_MSEC);
    }
  }

  lemma {:induction false} DistinctSize(s: seq<PlayerKey>)
    requires NoDuplicates(s)
    ensures |ToSet(s)| == |s|
  {
    if s == [] {
      assert ToSet(s) == {};
    } else {
      var front, last := s[..|s| - 1], s[|s| - 1];
      DistinctSize(front);
      assert s == front + [last];
      assert ToSet(s) == ToSet(front) + {last} && last !in ToSet(front);
    }
  }
}
