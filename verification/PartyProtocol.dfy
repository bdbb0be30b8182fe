/** The party worker group as a state machine over its critical sections. Selection happens outside the
    group's lock, so what a worker thread selected is carried, possibly stale, to a later commit. */
module PartyProtocol {
  import opened Tickets
  import opened Ordered
  import opened TimedQueue

  /** A ticket as the group sees it: its party size and status, the worker its id hashes to, how far its
      search window has grown, and whether its request ever reached the queue. */
  datatype TicketState = TicketState(size: int, status: Status, baseWorker: int, level: nat, enqueued: bool)

  /** The state the group's lock protects: who waits at which worker, the tickets, and the pending
      window expansions. */
  datatype Queues = Queues(workers: seq<set<TicketId>>, tickets: map<TicketId, TicketState>, expand: Queue<TicketId>)

  function Clamp(x: int, lo: int, hi: int): int {
    if x < lo then lo else if x > hi then hi else x
  }

  function MinWorker(t: TicketState, top: int): int {
    Clamp(t.baseWorker - t.level, 0, top)
  }

  function MaxWorker(t: TicketState, top: int): int {
    Clamp(t.baseWorker + t.level, 0, top)
  }

  predicate InWindow(t: TicketState, w: int, top: int) {
    MinWorker(t, top) <= w <= MaxWorker(t, top)
  }

  predicate Covers(t: TicketState, top: int) {
    MinWorker(t, top) == 0 && MaxWorker(t, top) == top
  }

  function Top(q: Queues): int {
    |q.workers| - 1
  }

  // ---------- The critical sections ----------

  function WithStatus(tickets: map<TicketId, TicketState>, ids: set<TicketId>, s: Status): map<TicketId, TicketState> {
    map id | id in tickets :: if id in ids then tickets[id].(status := s) else tickets[id]
  }

  /** A request enters its base worker; with several workers it is also booked for expansion. The result
      of the change to QUEUED is ignored. A request that waits there already is turned away and erased. */
  function AfterEnqueue(q: Queues, id: TicketId, now: int): Queues
    requires q.workers != [] && id in q.tickets
  {
    var t := q.tickets[id];
    var b := id % |q.workers|;
    var enters := id !in q.workers[b];
    Queues(q.workers[b := if enters then q.workers[b] + {id} else q.workers[b] - {id}],
           q.tickets[id := TicketState(t.size, if enters && CanChangeStatus(t.status, Queued) then Queued else t.status,
                                       b, t.level, true)],
           if |q.workers| > 1 then Insert(q.expand, now, id) else q.expand)
  }

  /** A cancel that the status table allows takes the ticket out of every worker. */
  function AfterCancel(q: Queues, id: TicketId): Queues
    requires id in q.tickets
  {
    if !CanChangeStatus(q.tickets[id].status, Cancelled) then q
    else q.(workers := seq(|q.workers|, w requires 0 <= w < |q.workers| => q.workers[w] - {id}),
            tickets := WithStatus(q.tickets, {id}, Cancelled))
  }

  predicate Fresh(q: Queues, ids: seq<TicketId>) {
    forall i :: 0 <= i < |ids| ==> ids[i] in q.tickets && q.tickets[ids[i]].status.Queued?
  }

  ghost function InWindowOf(q: Queues, ids: set<TicketId>, w: int): set<TicketId> {
    set id | id in ids && id in q.tickets && InWindow(q.tickets[id], w, Top(q))
  }

  /** Commit re-checks every status under the lock: a fresh list moves to SEARCHING as a whole and leaves
      the workers of each ticket's window; a stale one changes nothing. */
  ghost function AfterCommit(q: Queues, ids: seq<TicketId>): Queues {
    if !Fresh(q, ids) then q
    else q.(workers := seq(|q.workers|, w requires 0 <= w < |q.workers| =>
                                          q.workers[w] - InWindowOf(q, ToSet(ids), w)),
            tickets := WithStatus(q.tickets, ToSet(ids), Searching))
  }

  function Widened(t: TicketState): TicketState {
    t.(level := t.level + 1)
  }

  /** The workers one expansion step adds: the new ends of the window, where they moved. */
  predicate NewEnd(t: TicketState, w: int, top: int) {
    || (w == MinWorker(Widened(t), top) && w != MinWorker(t, top))
    || (w == MaxWorker(Widened(t), top) && w != MaxWorker(t, top))
  }

  /** How many entries at the front of the booking are due: booked before the current second. */
  function DueCount(expand: Queue<TicketId>, now: int): (n: nat)
    ensures n <= |expand|
    ensures forall i :: 0 <= i < n ==> expand[i].0 < now
    ensures n < |expand| ==> expand[n].0 >= now
  {
    if expand == [] || expand[0].0 > now - 1 then 0 else 1 + DueCount(expand[1..], now)
  }

  ghost function Due(q: Queues, now: int): seq<TicketId> {
    seq(DueCount(q.expand, now), i requires 0 <= i < DueCount(q.expand, now) => q.expand[i].1)
  }

  ghost function Growing(q: Queues, due: set<TicketId>): set<TicketId> {
    set id | id in due && id in q.tickets && q.tickets[id].status.Queued?
  }

  ghost function NewAt(q: Queues, grow: set<TicketId>, w: int): set<TicketId> {
    set id | id in grow && id in q.tickets && NewEnd(q.tickets[id], w, Top(q))
  }

  /** The widened tickets that still do not cover every worker, in booking order. */
  ghost function Rebooked(q: Queues, due: seq<TicketId>): seq<TicketId> {
    if due == [] then []
    else
      var rest := Rebooked(q, due[..|due| - 1]);
      var id := due[|due| - 1];
      if id in q.tickets && q.tickets[id].status.Queued? && !Covers(Widened(q.tickets[id]), Top(q))
      then rest + [id] else rest
  }

  ghost function Book(expand: Queue<TicketId>, now: int, ids: seq<TicketId>): Queue<TicketId> {
    if ids == [] then expand else Insert(Book(expand, now, ids[..|ids| - 1]), now, ids[|ids| - 1])
  }

  /** One round of window expansion over every booking that is due. */
  ghost function AfterExpand(q: Queues, now: int): Queues {
    var due := Due(q, now);
    var grow := Growing(q, ToSet(due));
    Queues(seq(|q.workers|, w requires 0 <= w < |q.workers| => q.workers[w] + NewAt(q, grow, w)),
           map id | id in q.tickets :: if id in grow then Widened(q.tickets[id]) else q.tickets[id],
           Book(q.expand[|due|..], now, Rebooked(q, due)))
  }

  // ---------- The whole protocol ----------

  /** The queues, what each worker thread has selected but not committed, and the history of commits and
      of successful cancels. */
  datatype Group = Group(q: Queues, held: map<int, seq<TicketId>>,
                         matches: seq<seq<TicketId>>, cancelled: set<TicketId>)

  datatype Step =
    | Register(id: TicketId, size: int)
    | Enqueue(id: TicketId, now: int)
    | Cancel(id: TicketId)
    | Select(worker: int, ids: seq<TicketId>)
    | Commit(worker: int)
    | Expand(now: int)
    | Outside(id: TicketId, next: Status)

  ghost function Players(q: Queues, ids: seq<TicketId>): int {
    if ids == [] then 0
    else (if ids[|ids| - 1] in q.tickets then q.tickets[ids[|ids| - 1]].size else 0) + Players(q, ids[..|ids| - 1])
  }

  /** All that is known of a selection by the time it is committed: distinct tickets that waited at that
      worker when it looked, with exactly the players of a match. Their statuses may since have changed. */
  ghost predicate Selectable(q: Queues, n: int, w: int, ids: seq<TicketId>) {
    && 0 <= w < |q.workers|
    && ids != [] && NoDuplicates(ids)
    && (forall i :: 0 <= i < |ids| ==> ids[i] in q.workers[w])
    && Players(q, ids) == n
  }

  /** A manager makes one request for each ticket and enqueues it once. */
  ghost predicate Enabled(g: Group, n: int, step: Step) {
    match step
    case Register(id, size) => id >= 0 && id !in g.q.tickets
    case Enqueue(id, now) =>
      && g.q.workers != [] && id in g.q.tickets && !g.q.tickets[id].enqueued
      && (g.q.tickets[id].status.Unset? || g.q.tickets[id].status.Cancelled?)
    case Cancel(id) => id in g.q.tickets
    case Select(w, ids) => w !in g.held && Selectable(g.q, n, w, ids)
    case Commit(w) => w in g.held
    case Expand(now) => true
    case Outside(id, next) =>
      // What sessions and failed registrations do to a ticket that is not in the queue's hands.
      && id in g.q.tickets && CanChangeStatus(g.q.tickets[id].status, next)
      && (Stage(g.q.tickets[id].status) >= 2 || (g.q.tickets[id].status.Unset? && next.Failed?))
  }

  ghost function Apply(g: Group, n: int, step: Step): Group
    requires Enabled(g, n, step)
  {
    match step
    case Register(id, size) => g.(q := g.q.(tickets := g.q.tickets[id := TicketState(size, Unset, 0, 0, false)]))
    case Enqueue(id, now) => g.(q := AfterEnqueue(g.q, id, now))
    case Cancel(id) =>
      g.(q := AfterCancel(g.q, id),
         cancelled := if CanChangeStatus(g.q.tickets[id].status, Cancelled) then g.cancelled + {id} else g.cancelled)
    case Select(w, ids) => g.(held := g.held[w := ids])
    case Commit(w) =>
      g.(q := AfterCommit(g.q, g.held[w]), held := g.held - {w},
         matches := if Fresh(g.q, g.held[w]) then g.matches + [g.held[w]] else g.matches)
    case Expand(now) => g.(q := AfterExpand(g.q, now))
    case Outside(id, next) => g.(q := g.q.(tickets := WithStatus(g.q.tickets, {id}, next)))
  }

  // ---------- Invariants of the queues ----------

  /** A ticket only ever waits inside its window, and only while QUEUED, or CANCELLED before its request
      reached the queue. */
  ghost predicate WaitingSane(q: Queues) {
    forall w, id :: 0 <= w < |q.workers| && id in q.workers[w] ==>
      && id in q.tickets && q.tickets[id].enqueued
      && (q.tickets[id].status.Queued? || q.tickets[id].status.Cancelled?)
      && InWindow(q.tickets[id], w, Top(q))
  }

  /** A QUEUED ticket waits at every worker of its window. */
  ghost predicate WindowsFull(q: Queues) {
    forall id, w ::
      id in q.tickets && q.tickets[id].status.Queued? && 0 <= w < |q.workers| && InWindow(q.tickets[id], w, Top(q))
      ==> id in q.workers[w]
  }

  ghost predicate BasesSane(q: Queues) {
    forall id :: id in q.tickets ==>
      && (q.tickets[id].status.Queued? ==> q.tickets[id].enqueued)
      && (q.tickets[id].status.Unset? ==> !q.tickets[id].enqueued)
      && (q.tickets[id].enqueued ==> 0 <= q.tickets[id].baseWorker < |q.workers|)
      && (!q.tickets[id].enqueued ==> q.tickets[id].level == 0)
      && id >= 0
  }

  ghost predicate BooksId(expand: Queue<TicketId>, id: TicketId) {
    exists i :: 0 <= i < |expand| && expand[i].1 == id
  }

  ghost predicate BooksOnce(expand: Queue<TicketId>) {
    forall i, j :: 0 <= i < j < |expand| ==> expand[i].1 != expand[j].1
  }

  /** A QUEUED ticket is booked for expansion exactly while its window does not cover every worker, and
      no ticket is booked twice. */
  ghost predicate BookingsSane(q: Queues) {
    && BooksOnce(q.expand)
    && (|q.workers| == 1 ==> q.expand == [])
    && (forall id :: BooksId(q.expand, id) ==> id in q.tickets && q.tickets[id].enqueued)
    && (forall id :: id in q.tickets && q.tickets[id].status.Queued? ==>
                       (BooksId(q.expand, id) <==> !Covers(q.tickets[id], Top(q))))
  }

  ghost predicate QueuesSane(q: Queues) {
    && q.workers != []
    && BasesSane(q) && WaitingSane(q) && WindowsFull(q)
  }

  /** The window invariant: a QUEUED ticket sits in exactly the workers from clamp(base - level) to
      clamp(base + level). */
  lemma QueuedSitsInWindow(q: Queues, id: TicketId)
    requires QueuesSane(q) && id in q.tickets && q.tickets[id].status.Queued?
    ensures forall w :: 0 <= w < |q.workers| ==> (id in q.workers[w] <==> InWindow(q.tickets[id], w, Top(q)))
    ensures exists w :: 0 <= w < |q.workers| && id in q.workers[w]
  {
    assert InWindow(q.tickets[id], q.tickets[id].baseWorker, Top(q));
  }

  lemma EnqueuedSane(q: Queues, id: TicketId, now: int)
    requires QueuesSane(q) && id in q.tickets && !q.tickets[id].enqueued
    requires q.tickets[id].status.Unset? || q.tickets[id].status.Cancelled?
    ensures QueuesSane(AfterEnqueue(q, id, now))
  {
    var q' := AfterEnqueue(q, id, now);
    forall w, x | 0 <= w < |q'.workers| && x in q'.workers[w]
      ensures x in q'.tickets && q'.tickets[x].enqueued
      ensures q'.tickets[x].status.Queued? || q'.tickets[x].status.Cancelled?
      ensures InWindow(q'.tickets[x], w, Top(q'))
    {
      if x in q.workers[w] {
        assert q.tickets[x].enqueued;
      }
    }
  }

  lemma CancelledSane(q: Queues, id: TicketId)
    requires QueuesSane(q) && id in q.tickets
    ensures QueuesSane(AfterCancel(q, id))
    ensures CanChangeStatus(q.tickets[id].status, Cancelled) ==>
      forall w :: 0 <= w < |q.workers| ==> id !in AfterCancel(q, id).workers[w]
  {
    var q' := AfterCancel(q, id);
    assert forall w :: 0 <= w < |q.workers| ==> q'.workers[w] <= q.workers[w];
  }

  /** After a successful commit the committed tickets wait nowhere, and nothing else moved. */
  lemma CommittedSane(q: Queues, ids: seq<TicketId>)
    requires QueuesSane(q)
    ensures QueuesSane(AfterCommit(q, ids))
    ensures Fresh(q, ids) ==>
      forall w :: 0 <= w < |q.workers| ==> AfterCommit(q, ids).workers[w] == q.workers[w] - ToSet(ids)
  {
    if Fresh(q, ids) {
      var q' := AfterCommit(q, ids);
      forall w | 0 <= w < |q.workers| ensures q'.workers[w] == q.workers[w] - ToSet(ids) {
        forall id | id in q.workers[w] && id in ids ensures id in InWindowOf(q, ToSet(ids), w) {
        }
      }
      FreshMembers(q, ids);
    }
  }

  lemma FreshMembers(q: Queues, ids: seq<TicketId>)
    requires Fresh(q, ids)
    ensures forall id :: id in ids ==> id in q.tickets && q.tickets[id].status.Queued?
  {
    forall id | id in ids ensures id in q.tickets && q.tickets[id].status.Queued? {
      var i :| 0 <= i < |ids| && ids[i] == id;
    }
  }

  /** One expansion step moves each end of the window by at most one, and the workers in between stay. */
  lemma WideningAddsEnds(t: TicketState, w: int, top: int)
    requires 0 <= t.baseWorker <= top
    ensures InWindow(Widened(t), w, top) <==> InWindow(t, w, top) || NewEnd(t, w, top)
    ensures Covers(t, top) ==> !NewEnd(t, w, top)
  {
  }

  /** A window covers every worker exactly when the level reaches the farther end. */
  lemma CoversAtLevel(t: TicketState, top: int)
    requires 0 <= t.baseWorker <= top
    ensures Covers(t, top) <==> t.level >= t.baseWorker && t.level >= top - t.baseWorker
  {
  }

  lemma ExpandedSane(q: Queues, now: int)
    requires QueuesSane(q)
    ensures QueuesSane(AfterExpand(q, now))
  {
    var q' := AfterExpand(q, now);
    var grow := Growing(q, ToSet(Due(q, now)));
    forall w, id | 0 <= w < |q'.workers| && id in q'.workers[w]
      ensures id in q'.tickets && q'.tickets[id].enqueued
      ensures q'.tickets[id].status.Queued? || q'.tickets[id].status.Cancelled?
      ensures InWindow(q'.tickets[id], w, Top(q'))
    {
      WideningAddsEnds(q.tickets[id], w, Top(q));
    }
    forall id, w | id in q'.tickets && q'.tickets[id].status.Queued? && 0 <= w < |q'.workers|
                   && InWindow(q'.tickets[id], w, Top(q'))
      ensures id in q'.workers[w]
    {
      WideningAddsEnds(q.tickets[id], w, Top(q));
      if id in grow && NewEnd(q.tickets[id], w, Top(q)) {
        assert id in NewAt(q, grow, w);
      }
    }
  }

  // ---------- Bookings ----------

  lemma {:induction false} RebookedMembers(q: Queues, due: seq<TicketId>, id: TicketId)
    ensures id in Rebooked(q, due) <==>
      id in due && id in q.tickets && q.tickets[id].status.Queued? && !Covers(Widened(q.tickets[id]), Top(q))
  {
    if due != [] {
      RebookedMembers(q, due[..|due| - 1], id);
      assert due == due[..|due| - 1] + [due[|due| - 1]];
    }
  }

  lemma {:induction false} RebookedDistinct(q: Queues, due: seq<TicketId>)
    requires NoDuplicates(due)
    ensures NoDuplicates(Rebooked(q, due))
  {
    if due != [] {
      var front, last := due[..|due| - 1], due[|due| - 1];
      RebookedDistinct(q, front);
      RebookedMembers(q, front, last);
      assert last !in front;
    }
  }

  lemma {:induction false} InsertBooks(expand: Queue<TicketId>, now: int, id: TicketId, x: TicketId)
    ensures BooksId(Insert(expand, now, id), x) <==> BooksId(expand, x) || x == id
  {
    var q' := Insert(expand, now, id);
    if expand == [] || expand[|expand| - 1].0 <= now {
      assert q'[|expand|].1 == id;
      if BooksId(expand, x) {
        var i :| 0 <= i < |expand| && expand[i].1 == x;
        assert q'[i].1 == x;
      }
    } else {
      var front := expand[..|expand| - 1];
      InsertBooks(front, now, id, x);
      var r := Insert(front, now, id);
      assert q' == r + [expand[|expand| - 1]];
      if BooksId(r, x) {
        var i :| 0 <= i < |r| && r[i].1 == x;
        assert q'[i].1 == x;
      }
      if BooksId(expand, x) {
        var i :| 0 <= i < |expand| && expand[i].1 == x;
        if i < |front| {
          assert front[i].1 == x;
        } else {
          assert q'[|r|].1 == x;
        }
      }
      if BooksId(front, x) {
        var i :| 0 <= i < |front| && front[i].1 == x;
        assert expand[i].1 == x;
      }
    }
  }

  lemma {:induction false} InsertBooksOnce(expand: Queue<TicketId>, now: int, id: TicketId)
    requires BooksOnce(expand) && !BooksId(expand, id)
    ensures BooksOnce(Insert(expand, now, id))
  {
    if expand == [] || expand[|expand| - 1].0 <= now {
    } else {
      var front, last := expand[..|expand| - 1], expand[|expand| - 1];
      assert !BooksId(front, id);
      InsertBooksOnce(front, now, id);
      InsertBooks(front, now, id, last.1);
      var r := Insert(front, now, id);
      assert !BooksId(front, last.1);
      assert !BooksId(r, last.1);
    }
  }

  lemma {:induction false} BookBooks(expand: Queue<TicketId>, now: int, ids: seq<TicketId>, x: TicketId)
    ensures BooksId(Book(expand, now, ids), x) <==> BooksId(expand, x) || x in ids
  {
    if ids != [] {
      var front := ids[..|ids| - 1];
      BookBooks(expand, now, front, x);
      InsertBooks(Book(expand, now, front), now, ids[|ids| - 1], x);
      assert ids == front + [ids[|ids| - 1]];
    }
  }

  lemma {:induction false} BookOnce(expand: Queue<TicketId>, now: int, ids: seq<TicketId>)
    requires BooksOnce(expand) && NoDuplicates(ids)
    requires forall id :: id in ids ==> !BooksId(expand, id)
    ensures BooksOnce(Book(expand, now, ids))
  {
    if ids != [] {
      var front, last := ids[..|ids| - 1], ids[|ids| - 1];
      assert last !in front;
      BookOnce(expand, now, front);
      BookBooks(expand, now, front, last);
      InsertBooksOnce(Book(expand, now, front), now, last);
    }
  }

  lemma EnqueuedBookings(q: Queues, id: TicketId, now: int)
    requires QueuesSane(q) && BookingsSane(q) && id in q.tickets && !q.tickets[id].enqueued
    requires q.tickets[id].status.Unset? || q.tickets[id].status.Cancelled?
    ensures BookingsSane(AfterEnqueue(q, id, now))
  {
    var q' := AfterEnqueue(q, id, now);
    assert !BooksId(q.expand, id);
    CoversAtLevel(q'.tickets[id], Top(q'));
    if |q.workers| > 1 {
      InsertBooksOnce(q.expand, now, id);
      forall x ensures BooksId(q'.expand, x) <==> BooksId(q.expand, x) || x == id {
        InsertBooks(q.expand, now, id, x);
      }
    }
  }

  /** Changes that keep sizes, windows and bookings and queue nothing keep the bookings sane. */
  lemma SameBookings(q: Queues, q': Queues)
    requires BookingsSane(q) && q'.expand == q.expand && |q'.workers| == |q.workers|
    requires q.tickets.Keys <= q'.tickets.Keys
    requires forall id :: id in q.tickets ==>
      && (q'.tickets[id].status.Queued? ==> q.tickets[id].status.Queued?)
      && q'.tickets[id].level == q.tickets[id].level && q'.tickets[id].baseWorker == q.tickets[id].baseWorker
      && q'.tickets[id].enqueued == q.tickets[id].enqueued
    requires forall id :: id in q'.tickets && id !in q.tickets ==> !q'.tickets[id].status.Queued?
    ensures BookingsSane(q')
  {
  }

  lemma DueSplits(q: Queues, now: int, id: TicketId)
    requires BooksOnce(q.expand)
    ensures var due := Due(q, now);
            var rest := q.expand[|due|..];
            && NoDuplicates(due) && BooksOnce(rest)
            && (BooksId(q.expand, id) <==> id in due || BooksId(rest, id))
            && !(id in due && BooksId(rest, id))
  {
    var due := Due(q, now);
    var rest := q.expand[|due|..];
    forall i, j | 0 <= i < j < |due| ensures due[i] != due[j] {
      assert due[i] == q.expand[i].1 && due[j] == q.expand[j].1;
    }
    if BooksId(q.expand, id) {
      var i :| 0 <= i < |q.expand| && q.expand[i].1 == id;
      if i < |due| {
        assert due[i] == id;
      } else {
        assert rest[i - |due|].1 == id;
      }
    }
    if id in due {
      var i :| 0 <= i < |due| && due[i] == id;
      assert q.expand[i].1 == id;
      forall j | 0 <= j < |rest| ensures rest[j].1 != id {
        assert rest[j] == q.expand[j + |due|];
      }
    }
    if BooksId(rest, id) {
      var j :| 0 <= j < |rest| && rest[j].1 == id;
      assert q.expand[j + |due|].1 == id;
    }
  }

  lemma ExpandedBooks(q: Queues, now: int, id: TicketId)
    requires BooksOnce(q.expand)
    ensures var due := Due(q, now);
            BooksId(AfterExpand(q, now).expand, id) <==> BooksId(q.expand[|due|..], id) || id in Rebooked(q, due)
  {
    var due := Due(q, now);
    BookBooks(q.expand[|due|..], now, Rebooked(q, due), id);
  }

  lemma ExpandedBookings(q: Queues, now: int)
    requires QueuesSane(q) && BookingsSane(q)
    ensures BookingsSane(AfterExpand(q, now))
  {
    var q' := AfterExpand(q, now);
    var due := Due(q, now);
    var rest := q.expand[|due|..];
    DueSplits(q, now, 0);
    RebookedDistinct(q, due);
    forall id | id in Rebooked(q, due) ensures !BooksId(rest, id) {
      RebookedMembers(q, due, id);
      DueSplits(q, now, id);
    }
    BookOnce(rest, now, Rebooked(q, due));
    forall id | BooksId(q'.expand, id) ensures id in q'.tickets && q'.tickets[id].enqueued {
      ExpandedBooks(q, now, id);
      RebookedMembers(q, due, id);
      DueSplits(q, now, id);
    }
    forall id | id in q'.tickets && q'.tickets[id].status.Queued?
      ensures BooksId(q'.expand, id) <==> !Covers(q'.tickets[id], Top(q'))
    {
      ExpandedBooks(q, now, id);
      RebookedMembers(q, due, id);
      DueSplits(q, now, id);
    }
  }

  // ---------- Safety of every run ----------

  ghost predicate IsMatch(q: Queues, n: int, ids: seq<TicketId>) {
    && ids != [] && NoDuplicates(ids) && Players(q, ids) == n
    && (forall i :: 0 <= i < |ids| ==> ids[i] in q.tickets)
  }

  ghost predicate MatchesSane(g: Group, n: int) {
    && (forall i :: 0 <= i < |g.matches| ==> IsMatch(g.q, n, g.matches[i]))
    && (forall i, id :: 0 <= i < |g.matches| && id in g.matches[i] ==>
          id in g.q.tickets && PastQueue(g.q.tickets[id].status))
    && (forall i, j, id :: 0 <= i < j < |g.matches| && id in g.matches[i] ==> id !in g.matches[j])
    && (forall w :: w in g.held ==> IsMatch(g.q, n, g.held[w]))
    && (forall id :: id in g.cancelled ==> id in g.q.tickets && g.q.tickets[id].status.Cancelled?)
  }

  ghost predicate GroupSane(g: Group, n: int) {
    QueuesSane(g.q) && BookingsSane(g.q) && MatchesSane(g, n)
  }

  ghost predicate Initial(g: Group) {
    && g.q.workers != [] && (forall w :: 0 <= w < |g.q.workers| ==> g.q.workers[w] == {})
    && g.q.tickets == map[] && g.q.expand == [] && g.held == map[] && g.matches == [] && g.cancelled == {}
  }

  /** Tickets keep their size, and a status only moves along the table's life line. */
  ghost predicate TicketsEvolve(q: Queues, q': Queues) {
    forall id :: id in q.tickets ==>
      && id in q'.tickets && q'.tickets[id].size == q.tickets[id].size
      && (PastQueue(q.tickets[id].status) ==> PastQueue(q'.tickets[id].status))
      && (q.tickets[id].status.Cancelled? ==> q'.tickets[id].status.Cancelled?)
  }

  lemma StepEvolves(g: Group, n: int, step: Step)
    requires GroupSane(g, n) && Enabled(g, n, step)
    ensures TicketsEvolve(g.q, Apply(g, n, step).q)
  {
    if step.Commit? {
      if Fresh(g.q, g.held[step.worker]) {
        FreshMembers(g.q, g.held[step.worker]);
      }
    }
  }

  lemma {:induction false} PlayersKept(q: Queues, q': Queues, ids: seq<TicketId>)
    requires TicketsEvolve(q, q') && forall i :: 0 <= i < |ids| ==> ids[i] in q.tickets
    ensures Players(q', ids) == Players(q, ids)
  {
    if ids != [] {
      PlayersKept(q, q', ids[..|ids| - 1]);
      var last := ids[|ids| - 1];
      assert last in q.tickets;
    }
  }

  lemma MatchKept(q: Queues, q': Queues, n: int, ids: seq<TicketId>)
    requires TicketsEvolve(q, q') && IsMatch(q, n, ids)
    ensures IsMatch(q', n, ids)
  {
    PlayersKept(q, q', ids);
    forall i | 0 <= i < |ids| ensures ids[i] in q'.tickets {
      var id := ids[i];
      assert id in q.tickets;
    }
  }

  lemma QueuesStaySane(g: Group, n: int, step: Step)
    requires GroupSane(g, n) && Enabled(g, n, step)
    ensures QueuesSane(Apply(g, n, step).q)
  {
    match step
    case Enqueue(id, now) => EnqueuedSane(g.q, id, now);
    case Cancel(id) => CancelledSane(g.q, id);
    case Commit(w) => CommittedSane(g.q, g.held[w]);
    case Expand(now) => ExpandedSane(g.q, now);
    case _ =>
  }

  lemma BookingsStaySane(g: Group, n: int, step: Step)
    requires GroupSane(g, n) && Enabled(g, n, step)
    ensures BookingsSane(Apply(g, n, step).q)
  {
    var q' := Apply(g, n, step).q;
    match step
    case Enqueue(id, now) => EnqueuedBookings(g.q, id, now);
    case Expand(now) => ExpandedBookings(g.q, now);
    case Commit(w) =>
      if Fresh(g.q, g.held[w]) {
        FreshMembers(g.q, g.held[w]);
      }
      SameBookings(g.q, q');
    case _ => SameBookings(g.q, q');
  }

  /** A fresh list shares no ticket with an earlier match. */
  lemma FreshIsNew(g: Group, n: int, ids: seq<TicketId>)
    requires MatchesSane(g, n) && Fresh(g.q, ids)
    ensures forall i, id :: 0 <= i < |g.matches| && id in g.matches[i] ==> id !in ids
  {
    FreshMembers(g.q, ids);
  }

  lemma MatchesStaySane(g: Group, n: int, step: Step)
    requires GroupSane(g, n) && Enabled(g, n, step)
    ensures MatchesSane(Apply(g, n, step), n)
  {
    var g' := Apply(g, n, step);
    StepEvolves(g, n, step);
    forall i | 0 <= i < |g'.matches| ensures IsMatch(g'.q, n, g'.matches[i]) {
      if i < |g.matches| {
        MatchKept(g.q, g'.q, n, g.matches[i]);
      } else {
        MatchKept(g.q, g'.q, n, g.held[step.worker]);
      }
    }
    forall w | w in g'.held ensures IsMatch(g'.q, n, g'.held[w]) {
      if w in g.held {
        MatchKept(g.q, g'.q, n, g.held[w]);
      } else {
        SelectedIsMatch(g.q, n, step.worker, step.ids);
      }
    }
    if step.Commit? && Fresh(g.q, g.held[step.worker]) {
      FreshIsNew(g, n, g.held[step.worker]);
      FreshMembers(g.q, g.held[step.worker]);
    }
  }

  lemma SelectedIsMatch(q: Queues, n: int, w: int, ids: seq<TicketId>)
    requires QueuesSane(q) && Selectable(q, n, w, ids)
    ensures IsMatch(q, n, ids)
  {
    forall i | 0 <= i < |ids| ensures ids[i] in q.tickets {
      var id := ids[i];
      assert id in q.workers[w];
    }
  }

  ghost predicate IsRun(gs: seq<Group>, steps: seq<Step>, n: int) {
    && |gs| == |steps| + 1 && Initial(gs[0])
    && forall i :: 0 <= i < |steps| ==> Enabled(gs[i], n, steps[i]) && gs[i + 1] == Apply(gs[i], n, steps[i])
  }

  /** Every state of every run is sane, whatever the interleaving and however many workers there are. */
  lemma {:induction false} RunStaysSane(gs: seq<Group>, steps: seq<Step>, n: int, k: nat)
    requires IsRun(gs, steps, n) && k < |gs|
    ensures GroupSane(gs[k], n)
  {
    if k > 0 {
      RunStaysSane(gs, steps, n, k - 1);
      assert gs[k] == Apply(gs[k - 1], n, steps[k - 1]);
      QueuesStaySane(gs[k - 1], n, steps[k - 1]);
      BookingsStaySane(gs[k - 1], n, steps[k - 1]);
      MatchesStaySane(gs[k - 1], n, steps[k - 1]);
    }
  }

  /** History only grows: no commit and no cancel is ever forgotten. */
  lemma {:induction false} RunKeepsHistory(gs: seq<Group>, steps: seq<Step>, n: int, i: nat, j: nat)
    requires IsRun(gs, steps, n) && i <= j < |gs|
    ensures gs[i].matches <= gs[j].matches && gs[i].cancelled <= gs[j].cancelled
  {
    if i < j {
      RunKeepsHistory(gs, steps, n, i, j - 1);
      assert gs[j] == Apply(gs[j - 1], n, steps[j - 1]);
    }
  }

  /** Over every interleaving of registering, enqueuing, selecting, committing, cancelling and expanding on
      any number of workers: committed matches share no ticket, each has exactly the players of a match, and
      a ticket whose cancel succeeded at some point is in no match of any later point. */
  lemma CommittedMatchesAreSafe(gs: seq<Group>, steps: seq<Step>, n: int, i: nat, j: nat)
    requires IsRun(gs, steps, n) && i <= j < |gs|
    ensures forall a, b, id :: 0 <= a < b < |gs[j].matches| && id in gs[j].matches[a] ==> id !in gs[j].matches[b]
    ensures forall a :: 0 <= a < |gs[j].matches| ==>
              NoDuplicates(gs[j].matches[a]) && Players(gs[j].q, gs[j].matches[a]) == n
    ensures forall a, id :: id in gs[i].cancelled && 0 <= a < |gs[j].matches| ==> id !in gs[j].matches[a]
  {
    RunStaysSane(gs, steps, n, j);
    RunKeepsHistory(gs, steps, n, i, j);
  }

  /** A candidate that went stale between selection and commit changes no status and no queue: only the
      worker thread lets go of it. */
  lemma StaleCommitChangesNothing(gs: seq<Group>, steps: seq<Step>, n: int, k: nat, w: int, id: TicketId)
    requires IsRun(gs, steps, n) && k < |gs| && w in gs[k].held
    requires id in gs[k].held[w] && !(id in gs[k].q.tickets && gs[k].q.tickets[id].status.Queued?)
    ensures Apply(gs[k], n, Commit(w)) == gs[k].(held := gs[k].held - {w})
  {
    if Fresh(gs[k].q, gs[k].held[w]) {
      FreshMembers(gs[k].q, gs[k].held[w]);
    }
  }

  // ---------- What each step brings about ----------

  /** All tickets but this one are as they were, and so is who else waits where. */
  ghost predicate OnlyTicket(q: Queues, q': Queues, id: TicketId) {
    && q'.tickets.Keys == q.tickets.Keys && |q'.workers| == |q.workers|
    && (forall x :: x in q.tickets && x != id ==> q'.tickets[x] == q.tickets[x])
    && (forall w, x :: 0 <= w < |q.workers| && x != id ==> (x in q'.workers[w] <==> x in q.workers[w]))
  }

  /** A new ticket that is enqueued is QUEUED and waits at exactly the worker its id hashes to, and with several
      workers it is booked for expansion. */
  lemma EnqueueMeans(q: Queues, id: TicketId, now: int)
    requires QueuesSane(q) && id in q.tickets && !q.tickets[id].enqueued
    ensures var q', b := AfterEnqueue(q, id, now), id % |q.workers|;
            && OnlyTicket(q, q', id)
            && q'.tickets[id] == TicketState(q.tickets[id].size,
                                             if q.tickets[id].status.Unset? then Queued else q.tickets[id].status,
                                             b, 0, true)
            && (forall w :: 0 <= w < |q.workers| ==> (id in q'.workers[w] <==> w == b))
            && multiset(q'.expand) == multiset(q.expand) + if |q.workers| > 1 then multiset{(now, id)} else multiset{}
  {
    InsertKeepsAll(q.expand, now, id);
  }

  /** A new or QUEUED ticket that is cancelled is CANCELLED and waits nowhere; for any other nothing changes. */
  lemma CancelMeans(q: Queues, id: TicketId)
    requires id in q.tickets
    ensures var q' := AfterCancel(q, id);
            if q.tickets[id].status.Unset? || q.tickets[id].status.Queued?
            then && OnlyTicket(q, q', id) && q'.tickets[id] == q.tickets[id].(status := Cancelled)
                 && q'.expand == q.expand && forall w :: 0 <= w < |q.workers| ==> id !in q'.workers[w]
            else q' == q
  {
  }

  /** A list whose tickets are all still QUEUED is committed: they are SEARCHING and wait nowhere, and nothing
      else changes. Any other list changes nothing at all. */
  lemma CommitMeans(q: Queues, ids: seq<TicketId>)
    requires QueuesSane(q)
    ensures var q' := AfterCommit(q, ids);
            if forall id :: id in ids ==> id in q.tickets && q.tickets[id].status.Queued?
            then && q'.tickets.Keys == q.tickets.Keys && |q'.workers| == |q.workers| && q'.expand == q.expand
                 && (forall id :: id in q.tickets ==>
                       q'.tickets[id] == if id in ids then q.tickets[id].(status := Searching) else q.tickets[id])
                 && (forall w, id :: 0 <= w < |q.workers| ==>
                       (id in q'.workers[w] <==> id in q.workers[w] && id !in ids))
            else q' == q
  {
    CommittedSane(q, ids);
    if forall id :: id in ids ==> id in q.tickets && q.tickets[id].status.Queued? {
      forall i | 0 <= i < |ids| ensures ids[i] in q.tickets && q.tickets[ids[i]].status.Queued? {
        var id := ids[i];
        assert id in ids;
      }
      assert Fresh(q, ids);
    } else {
      NotFresh(q, ids);
    }
  }

  lemma NotFresh(q: Queues, ids: seq<TicketId>)
    requires !(forall id :: id in ids ==> id in q.tickets && q.tickets[id].status.Queued?)
    ensures !Fresh(q, ids)
  {
    if Fresh(q, ids) {
      FreshMembers(q, ids);
    }
  }

  /** A round of expansion changes no status, and nothing at all about a ticket that is not QUEUED; nobody stops
      waiting anywhere. */
  lemma ExpandMeans(q: Queues, now: int)
    ensures var q' := AfterExpand(q, now);
            && q'.tickets.Keys == q.tickets.Keys && |q'.workers| == |q.workers|
            && (forall id :: id in q.tickets ==>
                  && q'.tickets[id] == q.tickets[id].(level := q'.tickets[id].level)
                  && (!q.tickets[id].status.Queued? ==> q'.tickets[id] == q.tickets[id]))
            && (forall w, id :: 0 <= w < |q.workers| && id in q.workers[w] ==> id in q'.workers[w])
            && (forall w, id :: 0 <= w < |q.workers| && id in q'.workers[w] && id !in q.workers[w] ==>
                  id in q.tickets && q.tickets[id].status.Queued?)
  {
  }

  /** What a worker thread selects it can commit, as long as nobody interferes: then a match of just these tickets
      is made, and they are SEARCHING. */
  lemma SelectThenCommit(g: Group, n: int, w: int, ids: seq<TicketId>)
    requires GroupSane(g, n) && Enabled(g, n, Select(w, ids))
    requires forall id :: id in ids ==> id in g.q.tickets && g.q.tickets[id].status.Queued?
    ensures var g1 := Apply(g, n, Select(w, ids));
            Enabled(g1, n, Commit(w)) && Apply(g1, n, Commit(w)).matches == g.matches + [ids]
    ensures var g1 := Apply(g, n, Select(w, ids));
            var q' := Apply(g1, n, Commit(w)).q;
            forall id :: id in ids ==> id in q'.tickets && q'.tickets[id].status == Searching
  {
    CommitMeans(g.q, ids);
    forall i | 0 <= i < |ids| ensures ids[i] in g.q.tickets && g.q.tickets[ids[i]].status.Queued? {
      var id := ids[i];
      assert id in ids;
    }
  }

  /** A ticket is new until it is enqueued, a cancel that goes through is remembered, and what happens to a
      ticket outside the queue changes its status only. */
  lemma OtherStepsMean(g: Group, n: int, step: Step)
    requires GroupSane(g, n) && Enabled(g, n, step)
    ensures var g' := Apply(g, n, step);
            match step
            case Register(id, size) =>
              g' == g.(q := g.q.(tickets := g.q.tickets[id := TicketState(size, Unset, 0, 0, false)]))
            case Cancel(id) =>
              && (id in g'.cancelled <==> id in g.cancelled
                                          || g.q.tickets[id].status.Unset? || g.q.tickets[id].status.Queued?)
              && (forall x :: x != id ==> (x in g'.cancelled <==> x in g.cancelled)) && g'.held == g.held
            case Outside(id, next) =>
              && OnlyTicket(g.q, g'.q, id) && g'.q.tickets[id] == g.q.tickets[id].(status := next)
              && g'.q.workers == g.q.workers && g' == g.(q := g'.q)
            case _ => true
  {
  }

  /** A run in which a ticket is registered, queued, selected and committed. */
  lemma SomeMatchHappens()
    ensures exists gs: seq<Group>, steps: seq<Step> ::
      && IsRun(gs, steps, 1) && |gs| == 5 && gs[4].matches == [[7]]
      && 7 in gs[4].q.tickets && gs[4].q.tickets[7].status == Searching
  {
    var g0 := Group(Queues([{}], map[], []), map[], [], {});
    var s0, s1, s2, s3 := Register(7, 1), Enqueue(7, 0), Select(0, [7]), Commit(0);
    var g1 := Apply(g0, 1, s0);
    var g2 := Apply(g1, 1, s1);
    assert g2.q.tickets[7] == TicketState(1, Queued, 0, 0, true) && 7 in g2.q.workers[0];
    assert Players(g2.q, [7]) == 1 by {
      assert [7][..0] == [];
    }
    var g3 := Apply(g2, 1, s2);
    var g4 := Apply(g3, 1, s3);
    assert Fresh(g3.q, [7]);
    assert g4.q.tickets[7].status == Searching;
    var gs, steps := [g0, g1, g2, g3, g4], [s0, s1, s2, s3];
    assert IsRun(gs, steps, 1);
  }

  // ---------- A cancel that overtakes the enqueue ----------

  /** Where the code falls short: a ticket cancelled between its registration and its enqueue still enters
      its base worker. */
  lemma LateEnqueueLeavesCancelledTicket()
    ensures exists gs: seq<Group>, steps: seq<Step> ::
      && IsRun(gs, steps, 1) && |gs| == 4
      && |gs[3].q.workers| == 1 && 7 in gs[3].q.workers[0]
      && 7 in gs[3].q.tickets && gs[3].q.tickets[7].status.Cancelled?
  {
    var g0 := Group(Queues([{}], map[], []), map[], [], {});
    var s0, s1, s2 := Register(7, 1), Cancel(7), Enqueue(7, 0);
    var g1 := Apply(g0, 1, s0);
    var g2 := Apply(g1, 1, s1);
    var g3 := Apply(g2, 1, s2);
    var gs, steps := [g0, g1, g2, g3], [s0, s1, s2];
    assert IsRun(gs, steps, 1);
    assert |gs[3].q.workers| == 1 && 7 in gs[3].q.workers[0];
    assert 7 in gs[3].q.tickets && gs[3].q.tickets[7].status.Cancelled?;
  }

  /** Such a ticket is never erased again: every later step leaves it waiting. */
  lemma StrandedTicketStays(g: Group, n: int, step: Step, w: int, id: TicketId)
    requires GroupSane(g, n) && Enabled(g, n, step) && 0 <= w < |g.q.workers|
    requires id in g.q.workers[w] && g.q.tickets[id].status.Cancelled?
    ensures var q' := Apply(g, n, step).q;
            |q'.workers| == |g.q.workers| && id in q'.workers[w] && q'.tickets[id].status.Cancelled?
  {
    if step.Commit? && Fresh(g.q, g.held[step.worker]) {
      FreshMembers(g.q, g.held[step.worker]);
    }
  }

  /** Exactly when that happens: a waiting ticket whose status is terminal was cancelled before its request
      was enqueued. Put as an invariant of the step: enqueuing is the only step that can leave a terminal
      ticket waiting that was not waiting before, and it does so if and only if the ticket was already
      CANCELLED. */
  lemma OnlyLateEnqueueStrands(g: Group, n: int, step: Step, w: int, id: TicketId)
    requires GroupSane(g, n) && Enabled(g, n, step) && 0 <= w < |g.q.workers|
    requires !(id in g.q.workers[w] && id in g.q.tickets && Terminal(g.q.tickets[id].status))
    ensures var q' := Apply(g, n, step).q;
            |q'.workers| == |g.q.workers| &&
            (id in q'.workers[w] && Terminal(q'.tickets[id].status)
             <==> step.Enqueue? && step.id == id && w == id % |g.q.workers|
                  && g.q.tickets[id].status.Cancelled?)
  {
    QueuesStaySane(g, n, step);
    match step
    case Cancel(x) => CancelledSane(g.q, x);
    case Commit(c) => CommittedSane(g.q, g.held[c]);
    case _ =>
  }
}
