/** Dodge penalties, cleaned up by timed jobs: the clean-up is invisible to the penalty test. */
module Penalties {
  import opened Tickets
  import opened Ordered
  import opened TimedQueue
  import opened AsyncJobs

  /** The stored penalties with the jobs that clean them up, the clock, and the expiry last assigned to each
      player. */
  datatype Book = Book(stored: map<PlayerKey, int>, jobs: Queue<PlayerKey>, now: int, latest: map<PlayerKey, int>)

  datatype Change =
    | Assign(player: PlayerKey, until: int)
    | Tick(now: int)
    | CleanUp

  /** The penalty test. */
  predicate Punished(stored: map<PlayerKey, int>, p: PlayerKey, now: int) {
    p in stored && stored[p] > now
  }

  /** What a clean-up job does: it clears the player's penalty only if that has expired. */
  function Cleared(stored: map<PlayerKey, int>, p: PlayerKey, now: int): map<PlayerKey, int> {
    if p in stored && stored[p] <= now then stored - {p} else stored
  }

  ghost predicate Enabled(b: Book, c: Change) {
    c.Tick? ==> c.now >= b.now
  }

  function Changed(b: Book, c: Change): Book {
    match c
    case Assign(p, until) =>
      b.(stored := b.stored[p := until], jobs := Insert(b.jobs, until, p), latest := b.latest[p := until])
    case Tick(now) => b.(now := now)
    case CleanUp =>
      if !Available(b.jobs, b.now) then b
      else b.(stored := Cleared(b.stored, b.jobs[0].1, b.now), jobs := b.jobs[1..])
  }

  ghost predicate Books(jobs: Queue<PlayerKey>, due: int, p: PlayerKey) {
    exists i :: 0 <= i < |jobs| && jobs[i].0 == due && jobs[i].1 == p
  }

  /** A stored penalty is the one last assigned and has its clean-up job at its expiry; an assigned one that
      is no longer stored has expired. */
  ghost predicate BookSane(b: Book) {
    && InOrder(b.jobs)
    && (forall p :: p in b.stored ==> p in b.latest && b.stored[p] == b.latest[p] && Books(b.jobs, b.stored[p], p))
    && (forall p :: p in b.latest && p !in b.stored ==> b.latest[p] <= b.now)
  }

  lemma BooksInserted(jobs: Queue<PlayerKey>, due: int, p: PlayerKey)
    requires InOrder(jobs)
    ensures InOrder(Insert(jobs, due, p)) && Books(Insert(jobs, due, p), due, p)
    ensures forall d, x :: Books(jobs, d, x) ==> Books(Insert(jobs, due, p), d, x)
  {
    InsertKeepsAll(jobs, due, p);
    var at := InsertPosition(jobs, due, p);
    var more := Insert(jobs, due, p);
    assert more[at] == (due, p);
    forall d, x | Books(jobs, d, x) ensures Books(more, d, x) {
      var i :| 0 <= i < |jobs| && jobs[i].0 == d && jobs[i].1 == x;
      assert more[if i < at then i else i + 1] == jobs[i];
    }
  }

  lemma BooksRest(jobs: Queue<PlayerKey>, due: int, p: PlayerKey)
    requires Books(jobs, due, p)
    ensures (jobs[0].0 == due && jobs[0].1 == p) || Books(jobs[1..], due, p)
  {
    var i :| 0 <= i < |jobs| && jobs[i].0 == due && jobs[i].1 == p;
    if i > 0 {
      assert jobs[1..][i - 1] == jobs[i];
    }
  }

  lemma StaysSane(b: Book, c: Change)
    requires BookSane(b) && Enabled(b, c)
    ensures BookSane(Changed(b, c))
  {
    match c
    case Assign(p, until) => BooksInserted(b.jobs, until, p);
    case Tick(now) =>
    case CleanUp =>
      if Available(b.jobs, b.now) {
        TailInOrder(b.jobs);
        forall p | p in Changed(b, c).stored ensures Books(b.jobs[1..], b.stored[p], p) {
          BooksRest(b.jobs, b.stored[p], p);
        }
      }
  }

  ghost predicate IsRun(bs: seq<Book>, cs: seq<Change>) {
    && |bs| == |cs| + 1 && bs[0].stored == map[] && bs[0].jobs == [] && bs[0].latest == map[]
    && forall i :: 0 <= i < |cs| ==> Enabled(bs[i], cs[i]) && bs[i + 1] == Changed(bs[i], cs[i])
  }

  lemma {:induction false} RunStaysSane(bs: seq<Book>, cs: seq<Change>, k: nat)
    requires IsRun(bs, cs) && k < |bs|
    ensures BookSane(bs[k])
  {
    if k > 0 {
      RunStaysSane(bs, cs, k - 1);
      assert bs[k] == Changed(bs[k - 1], cs[k - 1]);
      StaysSane(bs[k - 1], cs[k - 1]);
    }
  }

  /** Whether any of the first k steps assigns a penalty to the player, and the expiry that the last of them
      gives. */
  ghost predicate EverAssigned(cs: seq<Change>, k: nat, p: PlayerKey)
    requires k <= |cs|
  {
    exists i :: 0 <= i < k && cs[i].Assign? && cs[i].player == p
  }

  ghost function LastAssigned(cs: seq<Change>, k: nat, p: PlayerKey): int
    requires k <= |cs| && EverAssigned(cs, k, p)
  {
    if cs[k - 1].Assign? && cs[k - 1].player == p then cs[k - 1].until else LastAssigned(cs, k - 1, p)
  }

  lemma {:induction false} LatestIsLastAssigned(bs: seq<Book>, cs: seq<Change>, k: nat, p: PlayerKey)
    requires IsRun(bs, cs) && k < |bs|
    ensures p in bs[k].latest <==> EverAssigned(cs, k, p)
    ensures p in bs[k].latest ==> bs[k].latest[p] == LastAssigned(cs, k, p)
  {
    if k > 0 {
      LatestIsLastAssigned(bs, cs, k - 1, p);
      assert bs[k] == Changed(bs[k - 1], cs[k - 1]);
      if EverAssigned(cs, k, p) && !(cs[k - 1].Assign? && cs[k - 1].player == p) {
        assert EverAssigned(cs, k - 1, p);
      }
    }
  }

  /** Over every run with a clock that does not go back, the penalty test at the current time says exactly whether
      the player was ever assigned a penalty and the last one assigned expires later than now, whatever clean-ups
      have run. */
  lemma CleanUpIsInvisible(bs: seq<Book>, cs: seq<Change>, k: nat, p: PlayerKey)
    requires IsRun(bs, cs) && k < |bs|
    ensures Punished(bs[k].stored, p, bs[k].now) <==> EverAssigned(cs, k, p) && LastAssigned(cs, k, p) > bs[k].now
  {
    RunStaysSane(bs, cs, k);
    LatestIsLastAssigned(bs, cs, k, p);
  }

  /** And the clean-up is complete: once no job is due, exactly the penalties last assigned that have not expired
      are stored. */
  lemma NoExpiredPenaltyRemains(bs: seq<Book>, cs: seq<Change>, k: nat)
    requires IsRun(bs, cs) && k < |bs| && !Available(bs[k].jobs, bs[k].now)
    ensures forall p :: p in bs[k].stored <==> EverAssigned(cs, k, p) && LastAssigned(cs, k, p) > bs[k].now
    ensures forall p :: p in bs[k].stored ==> bs[k].stored[p] == LastAssigned(cs, k, p)
  {
    RunStaysSane(bs, cs, k);
    var b := bs[k];
    forall p | p in b.stored ensures b.stored[p] > b.now {
      var i :| 0 <= i < |b.jobs| && b.jobs[i].0 == b.stored[p] && b.jobs[i].1 == p;
      assert b.jobs[0].0 <= b.jobs[i].0;
    }
    forall p ensures p in b.stored <==> EverAssigned(cs, k, p) && LastAssigned(cs, k, p) > b.now
             ensures p in b.stored ==> b.stored[p] == LastAssigned(cs, k, p)
    {
      LatestIsLastAssigned(bs, cs, k, p);
    }
  }

  /** The clock moves as it is told, and a clean-up job runs exactly when the first booking is due. */
  lemma ClockAndJobs(b: Book, c: Change)
    requires Enabled(b, c)
    ensures Changed(b, c).now == if c.Tick? then c.now else b.now
    ensures c.Assign? ==> multiset(Changed(b, c).jobs) == multiset(b.jobs) + multiset{(c.until, c.player)}
    ensures c.Tick? ==> Changed(b, c).jobs == b.jobs
    ensures c.CleanUp? ==> Changed(b, c).jobs == if b.jobs != [] && b.jobs[0].0 <= b.now then b.jobs[1..] else b.jobs
  {
    if c.Assign? {
      InsertKeepsAll(b.jobs, c.until, c.player);
    }
  }

  class MatchPenaltyManager {
    const worker: AsyncJobWorker<PlayerKey>
    var penalties: map<PlayerKey, int>
    ghost var latest: map<PlayerKey, int>

    constructor ()
      ensures Valid() && fresh(worker) && Model(0) == Book(map[], [], 0, map[])
    {
      worker := new AsyncJobWorker();
      penalties, latest := map[], map[];
    }

    ghost predicate Valid()
      reads worker
    {
      worker.Valid()
    }

    ghost function Model(now: int): Book
      reads this, worker
    {
      Book(penalties, worker.waiting, now, latest)
    }

    method AddDodgePenalty(p: PlayerKey, until: int, ghost now: int)
      requires Valid()
      modifies this, worker
      ensures Valid()
      ensures penalties == old(penalties)[p := until]
      ensures worker.history == old(worker.history) + [Enqueue(until, p)]
      ensures Model(now) == Changed(old(Model(now)), Assign(p, until))
    {
      penalties := penalties[p := until];
      latest := latest[p := until];
      worker.EnqueueJobRequest(until, p);
    }

    method ClearDodgePenalty(p: PlayerKey)
      modifies `penalties
      ensures penalties == old(penalties) - {p}
    {
      penalties := penalties - {p};
    }

    /** Runs the first clean-up job, if it is due. */
    method RunJob(now: int)
      requires Valid()
      modifies this, worker
      ensures Valid()
      ensures var q, before := old(worker.waiting), old(penalties);
              penalties == if q != [] && q[0].0 <= now && q[0].1 in before && before[q[0].1] <= now
                           then before - {q[0].1} else before
      ensures Model(now) == Changed(old(Model(now)), CleanUp)
    {
      var job := worker.DoWorkerAsyncJob(now);
      if job != [] {
        var p := job[0];
        if p in penalties && penalties[p] <= now {
          ClearDodgePenalty(p);
        }
      }
    }

    predicate HasDodgePenalty(p: PlayerKey, now: int)
      reads this
    {
      p in penalties && penalties[p] > now
    }

    /** Whether any player of a request is punished. */
    method HasAnyDodgePenalty(players: set<PlayerKey>, now: int) returns (any: bool)
      ensures any <==> exists p :: p in players && p in penalties && penalties[p] > now
    {
      var list := Listed(players);
      for i := 0 to |list|
        invariant forall j :: 0 <= j < i ==> !Punished(penalties, list[j], now)
      {
        if HasDodgePenalty(list[i], now) {
          assert list[i] in ToSet(list) && Punished(penalties, list[i], now);
          return true;
        }
      }
      forall p | p in players ensures !Punished(penalties, p, now) {
        assert p in ToSet(list);
        var j :| 0 <= j < |list| && list[j] == p;
      }
      return false;
    }
  }
}
