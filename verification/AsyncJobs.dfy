/** The timed job worker: what it does with the jobs it is given, over any history of bookings and runs. */
module AsyncJobs {
  import opened TimedQueue

  /** A job that has run: when it was due, what it was, and when it ran. */
  datatype Ran<T> = Ran(due: int, job: T, at: int)

  datatype Worker<T> = Worker(waiting: Queue<T>, ran: seq<Ran<T>>)

  datatype Step<T> = Enqueue(due: int, job: T) | Run(now: int)

  predicate Available<T>(q: Queue<T>, now: int) {
    q != [] && q[0].0 <= now
  }

  function Apply<T>(w: Worker<T>, step: Step<T>): Worker<T> {
    match step
    case Enqueue(due, job) => w.(waiting := Insert(w.waiting, due, job))
    case Run(now) =>
      if !Available(w.waiting, now) then w
      else Worker(w.waiting[1..], w.ran + [Ran(w.waiting[0].0, w.waiting[0].1, now)])
  }

  ghost function After<T>(w: Worker<T>, steps: seq<Step<T>>): Worker<T> {
    if steps == [] then w else Apply(After(w, steps[..|steps| - 1]), steps[|steps| - 1])
  }

  /** The bookings among the steps. */
  ghost function Booked<T>(steps: seq<Step<T>>): multiset<(int, T)> {
    if steps == [] then multiset{}
    else
      var rest, last := Booked(steps[..|steps| - 1]), steps[|steps| - 1];
      if last.Enqueue? then rest + multiset{(last.due, last.job)} else rest
  }

  /** The bookings that have run. */
  ghost function Fulfilled<T>(ran: seq<Ran<T>>): multiset<(int, T)> {
    if ran == [] then multiset{}
    else Fulfilled(ran[..|ran| - 1]) + multiset{(ran[|ran| - 1].due, ran[|ran| - 1].job)}
  }

  /** Waiting and fulfilled bookings together are the bookings made. */
  ghost predicate Accounts<T>(w: Worker<T>, booked: multiset<(int, T)>) {
    multiset(w.waiting) + Fulfilled(w.ran) == booked && InOrder(w.waiting)
  }

  lemma EnqueueAccounts<T>(w: Worker<T>, booked: multiset<(int, T)>, due: int, job: T)
    requires Accounts(w, booked)
    ensures Accounts(Apply(w, Enqueue(due, job)), booked + multiset{(due, job)})
  {
    InsertKeepsAll(w.waiting, due, job);
  }

  lemma TailInOrder<T>(q: Queue<T>)
    requires InOrder(q) && q != []
    ensures InOrder(q[1..])
    ensures forall i :: 0 <= i < |q[1..]| ==> q[0].0 <= q[1..][i].0
    ensures multiset(q) == multiset{q[0]} + multiset(q[1..])
  {
    assert q == [q[0]] + q[1..];
    forall i, j | 0 <= i < j < |q[1..]| ensures q[1..][i].0 <= q[1..][j].0 {
      assert q[1..][i] == q[i + 1] && q[1..][j] == q[j + 1];
    }
  }

  lemma RunAccounts<T>(w: Worker<T>, booked: multiset<(int, T)>, now: int)
    requires Accounts(w, booked)
    ensures Accounts(Apply(w, Run(now)), booked)
  {
    if Available(w.waiting, now) {
      hide InOrder;
      var w' := Apply(w, Run(now));
      assert w'.ran[..|w.ran|] == w.ran;
      TailInOrder(w.waiting);
      assert w.waiting[0] == (w.waiting[0].0, w.waiting[0].1);
    }
  }

  /** Over every history, every booking is either still waiting or has run, exactly as often as it was made:
      no job is lost, none runs twice, and none that was not booked runs at all. */
  lemma {:induction false} NoJobLostOrRepeated<T>(steps: seq<Step<T>>)
    ensures var w := After(Worker([], []), steps);
            && multiset(w.waiting) + Fulfilled(w.ran) == Booked(steps)
            && InOrder(w.waiting)
  {
    if steps != [] {
      var front, last := steps[..|steps| - 1], steps[|steps| - 1];
      NoJobLostOrRepeated(front);
      var w := After(Worker([], []), front);
      hide Apply, InOrder, Fulfilled;
      match last
      case Enqueue(due, job) => EnqueueAccounts(w, Booked(front), due, job);
      case Run(now) => RunAccounts(w, Booked(front), now);
    }
  }

  /** No job ever runs before it is due. */
  lemma {:induction false} NoJobEarly<T>(steps: seq<Step<T>>, k: nat)
    requires k < |After(Worker([], []), steps).ran|
    ensures After(Worker([], []), steps).ran[k].due <= After(Worker([], []), steps).ran[k].at
  {
    if steps != [] {
      var front := steps[..|steps| - 1];
      if k < |After(Worker([], []), front).ran| {
        NoJobEarly(front, k);
      }
    }
  }

  /** A job that runs is due no later than any job it leaves waiting. */
  lemma EarliestRunsFirst<T>(steps: seq<Step<T>>, now: int)
    requires Available(After(Worker([], []), steps).waiting, now)
    ensures var w := After(Worker([], []), steps);
            var w' := Apply(w, Run(now));
            |w'.ran| == |w.ran| + 1
            && forall i :: 0 <= i < |w'.waiting| ==> w'.ran[|w.ran|].due <= w'.waiting[i].0
  {
    NoJobLostOrRepeated(steps);
    TailInOrder(After(Worker([], []), steps).waiting);
  }

  ghost function RunTimes<T>(w: Worker<T>, now: int, n: nat): Worker<T>
    decreases n
  {
    if n == 0 then w else RunTimes(Apply(w, Run(now)), now, n - 1)
  }

  /** As many runs as jobs are waiting leave none that is due. */
  lemma {:induction false} RunsClearWhatIsDue<T>(w: Worker<T>, now: int, n: nat)
    requires InOrder(w.waiting) && n >= |w.waiting|
    ensures forall i :: 0 <= i < |RunTimes(w, now, n).waiting| ==> RunTimes(w, now, n).waiting[i].0 > now
    decreases n
  {
    if Available(w.waiting, now) {
      TailInOrder(w.waiting);
      RunsClearWhatIsDue(Apply(w, Run(now)), now, n - 1);
    } else {
      NothingRuns(w, now, n);
    }
  }

  lemma {:induction false} NothingRuns<T>(w: Worker<T>, now: int, n: nat)
    requires !Available(w.waiting, now)
    ensures RunTimes(w, now, n) == w
    decreases n
  {
    if n > 0 {
      NothingRuns(w, now, n - 1);
    }
  }

  /** The worker's queue as an object, with all that was ever asked of it. */
  class AsyncJobWorker<T> {
    var waiting: Queue<T>
    ghost var ran: seq<Ran<T>>
    ghost var history: seq<Step<T>>

    constructor ()
      ensures Valid() && Model() == Worker([], []) && history == []
    {
      waiting, ran, history := [], [], [];
    }

    ghost function Model(): Worker<T>
      reads this
    {
      Worker(waiting, ran)
    }

    ghost predicate Valid()
      reads this
    {
      Model() == After(Worker([], []), history)
    }

    /** So whoever owns a worker knows that no booking of his is lost, runs twice or runs early. */
    lemma Accounted()
      requires Valid()
      ensures multiset(waiting) + Fulfilled(ran) == Booked(history) && InOrder(waiting)
      ensures forall k :: 0 <= k < |ran| ==> ran[k].due <= ran[k].at
    {
      NoJobLostOrRepeated(history);
      forall k | 0 <= k < |ran| ensures ran[k].due <= ran[k].at {
        NoJobEarly(history, k);
      }
    }

    method EnqueueJobRequest(due: int, job: T)
      requires Valid()
      modifies this
      ensures Valid() && history == old(history) + [Enqueue(due, job)]
      ensures Model() == Apply(old(Model()), Enqueue(due, job))
    {
      AfterOneMore(history, Enqueue(due, job));
      waiting := Insert(waiting, due, job);
      history := history + [Enqueue(due, job)];
    }

    predicate IsWorkerJobAvailable(now: int)
      reads this
    {
      waiting != [] && waiting[0].0 <= now
    }

    /** Takes the first job if it is due; what the job does is up to the caller. */
    method DoWorkerAsyncJob(now: int) returns (job: seq<T>)
      requires Valid()
      modifies this
      ensures Valid() && history == old(history) + [Run(now)]
      ensures Model() == Apply(old(Model()), Run(now))
      ensures job != [] <==> old(IsWorkerJobAvailable(now))
      ensures job == if old(Available(waiting, now)) then [old(waiting)[0].1] else []
    {
      AfterOneMore(history, Run(now));
      history := history + [Run(now)];
      if waiting == [] {
        return [];
      }
      if waiting[0].0 > now {
        return [];
      }
      job := [waiting[0].1];
      ran := ran + [Ran(waiting[0].0, waiting[0].1, now)];
      waiting := waiting[1..];
    }
  }

  lemma AfterOneMore<T>(history: seq<Step<T>>, step: Step<T>)
    ensures After(Worker([], []), history + [step]) == Apply(After(Worker([], []), history), step)
  {
    assert (history + [step])[..|history|] == history;
  }
}
