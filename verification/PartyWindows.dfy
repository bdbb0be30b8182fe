/** How far a ticket's search window has grown at any point of any run of the party worker group. */
module PartyWindows {
  import opened Tickets
  import opened Ordered
  import opened TimedQueue
  import opened PartyProtocol

  // ---------- Rounds that count ----------

  /** Among the steps from..upto, the rounds of expansion that reach a ticket booked at the given time: each is
      later than the one before it that counts, the first later than the booking. This is the time of the last
      of them, or of the booking. */
  ghost function LastRound(steps: seq<Step>, from: nat, upto: nat, since: int): int
    requires upto <= |steps|
    decreases upto
  {
    if upto <= from then since
    else Latest(LastRound(steps, from, upto - 1, since), steps[upto - 1])
  }

  ghost predicate IsLater(last: int, step: Step) {
    step.Expand? && step.now > last
  }

  ghost function Latest(last: int, step: Step): int {
    if IsLater(last, step) then step.now else last
  }

  /** And this is how many there are. */
  ghost function LaterRounds(steps: seq<Step>, from: nat, upto: nat, since: int): nat
    requires upto <= |steps|
    decreases upto
  {
    if upto <= from then 0
    else LaterRounds(steps, from, upto - 1, since)
         + (if IsLater(LastRound(steps, from, upto - 1, since), steps[upto - 1]) then 1 else 0)
  }

  // ---------- The bookings stay ordered ----------

  lemma InsertKeeps(expand: Queue<TicketId>, now: int, id: TicketId, x: (int, TicketId))
    ensures x in Insert(expand, now, id) <==> x in expand || x == (now, id)
    ensures InOrder(expand) ==> InOrder(Insert(expand, now, id))
  {
    InsertKeepsAll(expand, now, id);
    assert x in Insert(expand, now, id) <==> x in multiset(Insert(expand, now, id));
    assert x in expand <==> x in multiset(expand);
  }

  lemma {:induction false} BookKeeps(expand: Queue<TicketId>, now: int, ids: seq<TicketId>, x: (int, TicketId))
    ensures x in expand || (x.0 == now && x.1 in ids) ==> x in Book(expand, now, ids)
    ensures InOrder(expand) ==> InOrder(Book(expand, now, ids))
  {
    if ids != [] {
      var front, last := ids[..|ids| - 1], ids[|ids| - 1];
      BookKeeps(expand, now, front, x);
      InsertKeeps(Book(expand, now, front), now, last, x);
      assert ids == front + [last];
    }
  }

  lemma StepInOrder(g: Group, n: int, step: Step)
    requires Enabled(g, n, step) && InOrder(g.q.expand)
    ensures InOrder(Apply(g, n, step).q.expand) && |Apply(g, n, step).q.workers| == |g.q.workers|
  {
    hide Insert, Book, InOrder;
    match step
    case Enqueue(id, now) => InsertKeeps(g.q.expand, now, id, (now, id));
    case Expand(now) =>
      var due := Due(g.q, now);
      RestInOrder(g.q.expand, |due|);
      BookKeeps(g.q.expand[|due|..], now, Rebooked(g.q, due), (now, 0));
    case _ =>
  }

  lemma RestInOrder(expand: Queue<TicketId>, k: nat)
    requires InOrder(expand) && k <= |expand|
    ensures InOrder(expand[k..])
  {
  }

  lemma {:induction false} RunInOrder(gs: seq<Group>, steps: seq<Step>, n: int, k: nat)
    requires IsRun(gs, steps, n) && k < |gs|
    ensures InOrder(gs[k].q.expand) && |gs[k].q.workers| == |gs[0].q.workers| > 0
  {
    if k > 0 {
      RunInOrder(gs, steps, n, k - 1);
      assert gs[k] == Apply(gs[k - 1], n, steps[k - 1]);
      StepInOrder(gs[k - 1], n, steps[k - 1]);
    }
  }

  // ---------- One ticket's window ----------

  /** The level at which a window covers every worker. */
  function Reach(base: int, top: int): int {
    if base > top - base then base else top - base
  }

  /** While the ticket is QUEUED its level is the number of rounds that counted, up to the level at which it
      covers every worker; until then it is booked at the time of the last of them. */
  ghost predicate WidenedBy(q: Queues, id: TicketId, base: int, last: int, c: nat) {
    && id in q.tickets && q.tickets[id].enqueued && q.tickets[id].baseWorker == base && 0 <= base <= Top(q)
    && (q.tickets[id].status.Queued? ==>
          if c < Reach(base, Top(q)) then q.tickets[id].level == c && (last, id) in q.expand
          else q.tickets[id].level == Reach(base, Top(q)))
  }

  /** A round takes up every booking made before it, and no other. */
  lemma DueMeans(q: Queues, now: int, last: int, id: TicketId)
    requires InOrder(q.expand) && BooksOnce(q.expand) && (last, id) in q.expand
    ensures last < now ==> id in Due(q, now)
    ensures last >= now ==> id !in Due(q, now) && (last, id) in q.expand[|Due(q, now)|..]
  {
    var due := Due(q, now);
    var x :| 0 <= x < |q.expand| && q.expand[x] == (last, id);
    if last < now {
      assert x < |due|;
      assert due[x] == id;
    } else {
      assert x >= |due|;
      assert q.expand[|due|..][x - |due|] == (last, id);
      forall y | 0 <= y < |due| ensures due[y] != id {
        assert due[y] == q.expand[y].1;
      }
    }
  }

  /** What a round does to one ticket. */
  lemma RoundMeans(q: Queues, now: int, id: TicketId)
    requires id in q.tickets
    ensures var q', t, due := AfterExpand(q, now), q.tickets[id], Due(q, now);
            && |q'.workers| == |q.workers| && id in q'.tickets
            && q'.tickets[id] == (if id in due && t.status.Queued? then Widened(t) else t)
            && (id in due && t.status.Queued? && !Covers(Widened(t), Top(q)) ==> (now, id) in q'.expand)
            && forall last :: (last, id) in q.expand[|due|..] ==> (last, id) in q'.expand
  {
    var due := Due(q, now);
    RebookedMembers(q, due, id);
    forall last | (last, id) in q.expand[|due|..] || last == now
      ensures (last, id) in q.expand[|due|..] || (last == now && id in Rebooked(q, due))
              ==> (last, id) in AfterExpand(q, now).expand
    {
      BookKeeps(q.expand[|due|..], now, Rebooked(q, due), (last, id));
    }
  }

  lemma CoveringStays(q: Queues, now: int, id: TicketId)
    requires BookingsSane(q) && id in q.tickets && q.tickets[id].status.Queued? && Covers(q.tickets[id], Top(q))
    ensures id !in Due(q, now)
  {
    DueSplits(q, now, id);
  }

  lemma RoundWidens(q: Queues, now: int, id: TicketId, base: int, last: int, c: nat)
    requires QueuesSane(q) && BookingsSane(q) && InOrder(q.expand) && WidenedBy(q, id, base, last, c)
    ensures WidenedBy(AfterExpand(q, now), id, base, if now > last then now else last, if now > last then c + 1 else c)
  {
    hide QueuesSane, AfterExpand, Due, InOrder, Covers;
    var t, top := q.tickets[id], Top(q);
    RoundMeans(q, now, id);
    if t.status.Queued? {
      CoversAtLevel(t, top);
      CoversAtLevel(Widened(t), top);
      if c < Reach(base, top) {
        DueMeans(q, now, last, id);
      } else {
        CoveringStays(q, now, id);
      }
    }
  }

  /** A ticket that has been enqueued and is QUEUED was so before. */
  lemma StaysQueued(g: Group, n: int, step: Step, id: TicketId)
    requires GroupSane(g, n) && Enabled(g, n, step) && id in g.q.tickets && g.q.tickets[id].enqueued
    ensures var q' := Apply(g, n, step).q;
            && id in q'.tickets && q'.tickets[id].enqueued && q'.tickets[id].baseWorker == g.q.tickets[id].baseWorker
            && (q'.tickets[id].status.Queued? ==> g.q.tickets[id].status.Queued?)
            && (!step.Expand? ==> q'.tickets[id].level == g.q.tickets[id].level)
  {
  }

  lemma StepWidens(g: Group, n: int, step: Step, id: TicketId, base: int, last: int, c: nat)
    requires GroupSane(g, n) && InOrder(g.q.expand) && Enabled(g, n, step) && WidenedBy(g.q, id, base, last, c)
    ensures WidenedBy(Apply(g, n, step).q, id, base, Latest(last, step), if IsLater(last, step) then c + 1 else c)
  {
    if step.Expand? {
      RoundWidens(g.q, step.now, id, base, last, c);
    } else {
      StaysQueued(g, n, step, id);
      StepInOrder(g, n, step);
      if step.Enqueue? {
        InsertKeeps(g.q.expand, step.now, step.id, (last, id));
      }
    }
  }

  lemma EnqueueStarts(q: Queues, id: TicketId, now: int)
    requires QueuesSane(q) && id in q.tickets && !q.tickets[id].enqueued
    ensures WidenedBy(AfterEnqueue(q, id, now), id, id % |q.workers|, now, 0)
  {
    InsertKeeps(q.expand, now, id, (now, id));
  }

  lemma {:induction false} RunWidens(gs: seq<Group>, steps: seq<Step>, n: int, i: nat, j: nat, id: TicketId, now: int)
    requires IsRun(gs, steps, n) && 0 < i <= j < |gs| && steps[i - 1] == Enqueue(id, now)
    ensures |gs[j].q.workers| == |gs[0].q.workers| > 0
    ensures WidenedBy(gs[j].q, id, id % |gs[0].q.workers|, LastRound(steps, i, j, now), LaterRounds(steps, i, j, now))
  {
    hide Apply, Enabled, WidenedBy, GroupSane;
    RunInOrder(gs, steps, n, j);
    RunInOrder(gs, steps, n, j - 1);
    RunStaysSane(gs, steps, n, j - 1);
    assert gs[j] == Apply(gs[j - 1], n, steps[j - 1]);
    if i < j {
      RunWidens(gs, steps, n, i, j - 1, id, now);
      StepWidens(gs[j - 1], n, steps[j - 1], id, id % |gs[0].q.workers|, LastRound(steps, i, j - 1, now),
                 LaterRounds(steps, i, j - 1, now));
    } else {
      EnqueueStepStarts(gs[j - 1], n, id, now);
    }
  }

  lemma EnqueueStepStarts(g: Group, n: int, id: TicketId, now: int)
    requires GroupSane(g, n) && Enabled(g, n, Enqueue(id, now))
    ensures WidenedBy(Apply(g, n, Enqueue(id, now)).q, id, id % |g.q.workers|, now, 0)
  {
    EnqueueStarts(g.q, id, now);
  }

  /** In every run, whatever is interleaved, a ticket that is still QUEUED after c rounds that count waits at
      exactly the workers no farther than c from the one its id hashes to. */
  lemma QueuedWaitsWithin(gs: seq<Group>, steps: seq<Step>, n: int, i: nat, j: nat, id: TicketId, now: int)
    requires IsRun(gs, steps, n) && 0 < i <= j < |gs| && steps[i - 1] == Enqueue(id, now)
    requires id in gs[j].q.tickets && gs[j].q.tickets[id].status.Queued?
    ensures |gs[j].q.workers| == |gs[0].q.workers| > 0
    ensures var base, c := id % |gs[0].q.workers|, LaterRounds(steps, i, j, now);
            forall w :: 0 <= w < |gs[j].q.workers| ==> (id in gs[j].q.workers[w] <==> base - c <= w <= base + c)
  {
    RunWidens(gs, steps, n, i, j, id, now);
    RunStaysSane(gs, steps, n, j);
    QueuedSitsInWindow(gs[j].q, id);
  }

  /** So a ticket that stays QUEUED through as many such rounds as there are further workers ends up waiting at
      every worker. */
  lemma ExpansionReachesAll(gs: seq<Group>, steps: seq<Step>, n: int, i: nat, j: nat, id: TicketId, now: int)
    requires IsRun(gs, steps, n) && 0 < i <= j < |gs| && steps[i - 1] == Enqueue(id, now)
    requires id in gs[j].q.tickets && gs[j].q.tickets[id].status.Queued?
    requires LaterRounds(steps, i, j, now) >= |gs[0].q.workers| - 1
    ensures forall w :: 0 <= w < |gs[j].q.workers| ==> id in gs[j].q.workers[w]
  {
    QueuedWaitsWithin(gs, steps, n, i, j, id, now);
  }
}
