/** What one solo worker does to its two lists, on values: ticket ids move from the waiting list to the
    progressing list, smallest first, and a full progressing list becomes a match. */
module SoloLane {
  import opened Tickets
  import opened Ordered

  datatype Lane = Lane(waiting: set<TicketId>, progressing: set<TicketId>)

  ghost function Held(lane: Lane): set<TicketId> {
    lane.waiting + lane.progressing
  }

  ghost predicate Below(a: set<TicketId>, b: set<TicketId>) {
    forall x, y :: x in a && y in b ==> x < y
  }

  /** Between two critical sections the lists are disjoint and the progressing list is not yet a match. */
  ghost predicate LaneSane(lane: Lane, n: nat) {
    lane.waiting !! lane.progressing && |lane.progressing| < n
  }

  /** Moves waiting tickets over until the progressing list is full or nobody waits. */
  function Pull(lane: Lane, n: nat): Lane
    decreases |lane.waiting|
  {
    if |lane.progressing| >= n || lane.waiting == {} then lane
    else
      var id := Least(lane.waiting);
      Pull(Lane(lane.waiting - {id}, lane.progressing + {id}), n)
  }

  predicate Completes(lane: Lane, n: nat) {
    |Pull(lane, n).progressing| >= n
  }

  function AfterJob(lane: Lane, n: nat): Lane {
    if Completes(lane, n) then Lane(Pull(lane, n).waiting, {}) else Pull(lane, n)
  }

  /** The tickets one job matches. */
  function JobMatch(lane: Lane, n: nat): set<TicketId> {
    if Completes(lane, n) then Pull(lane, n).progressing else {}
  }

  /** Pulling loses no ticket and doubles none, takes the oldest waiting ones, and stops exactly when
      the progressing list is full or nobody waits. */
  lemma {:induction false} PullMeans(lane: Lane, n: nat)
    requires lane.waiting !! lane.progressing && |lane.progressing| <= n
    ensures var l := Pull(lane, n);
            && Held(l) == Held(lane) && l.waiting !! l.progressing
            && lane.progressing <= l.progressing
            && Below(l.progressing - lane.progressing, l.waiting)
            && |l.progressing| <= n
            && (|l.progressing| == n || l.waiting == {})
    decreases |lane.waiting|
  {
    if |lane.progressing| < n && lane.waiting != {} {
      var id := Least(lane.waiting);
      var next := Lane(lane.waiting - {id}, lane.progressing + {id});
      PullMeans(next, n);
      assert Held(next) == Held(lane);
      var l := Pull(next, n);
      forall x, y | x in l.progressing - lane.progressing && y in l.waiting ensures x < y {
        assert y in Held(l);
        assert y !in next.progressing;
        if x != id {
          assert x in l.progressing - next.progressing;
        }
      }
    }
  }

  /** One job: either it makes a match of exactly n tickets, or it leaves everybody in progress. Nobody is
      lost either way, and the lists are sane again. */
  lemma JobMeans(lane: Lane, n: nat)
    requires LaneSane(lane, n)
    ensures var l, m := AfterJob(lane, n), JobMatch(lane, n);
            && LaneSane(l, n)
            && Held(lane) == Held(l) + m && Held(l) !! m
            && (if |Held(lane)| >= n then |m| == n else m == {} && l == Lane({}, Held(lane)))
  {
    PullMeans(lane, n);
    var l := Pull(lane, n);
    HeldSize(lane);
    HeldSize(l);
    if !Completes(lane, n) {
      assert Held(l) == l.progressing;
    }
  }

  lemma HeldSize(lane: Lane)
    requires lane.waiting !! lane.progressing
    ensures |Held(lane)| == |lane.waiting| + |lane.progressing|
  {
  }

  /** With nobody younger in progress than waiting, a job matches only tickets older than all it leaves,
      and keeps that order. */
  lemma JobTakesOldest(lane: Lane, n: nat)
    requires LaneSane(lane, n) && Below(lane.progressing, lane.waiting)
    ensures Below(JobMatch(lane, n), Held(AfterJob(lane, n)))
    ensures Below(AfterJob(lane, n).progressing, AfterJob(lane, n).waiting)
  {
    PullMeans(lane, n);
    var l := Pull(lane, n);
    forall x, y | x in l.progressing && y in l.waiting ensures x < y {
      assert y in Held(lane);
      if x !in lane.progressing {
        assert x in l.progressing - lane.progressing;
      }
    }
  }

  /** The jobs a lone worker runs while tickets wait, and the matches they make. */
  function Drained(lane: Lane, n: nat): (Lane, seq<set<TicketId>>)
    requires n > 0 && LaneSane(lane, n)
    decreases |lane.waiting|
  {
    if lane.waiting == {} then (lane, [])
    else
      JobShrinks(lane, n);
      var m := JobMatch(lane, n);
      var rest := Drained(AfterJob(lane, n), n);
      (rest.0, if m == {} then rest.1 else [m] + rest.1)
  }

  lemma JobShrinks(lane: Lane, n: nat)
    requires LaneSane(lane, n) && lane.waiting != {}
    ensures LaneSane(AfterJob(lane, n), n)
    ensures |AfterJob(lane, n).waiting| < |lane.waiting|
  {
    JobMeans(lane, n);
    PullMeans(lane, n);
    PullKeepsNone(Lane(lane.waiting - {Least(lane.waiting)}, lane.progressing + {Least(lane.waiting)}), n);
  }

  lemma {:induction false} PullKeepsNone(lane: Lane, n: nat)
    ensures |Pull(lane, n).waiting| <= |lane.waiting|
    decreases |lane.waiting|
  {
    if |lane.progressing| < n && lane.waiting != {} {
      var id := Least(lane.waiting);
      PullKeepsNone(Lane(lane.waiting - {id}, lane.progressing + {id}), n);
    }
  }

  ghost function Union(ms: seq<set<TicketId>>): set<TicketId> {
    if ms == [] then {} else ms[0] + Union(ms[1..])
  }

  ghost predicate PairwiseApart(ms: seq<set<TicketId>>) {
    forall i, j :: 0 <= i < j < |ms| ==> ms[i] !! ms[j]
  }

  lemma {:induction false} UnionContains(ms: seq<set<TicketId>>, i: nat)
    requires i < |ms|
    ensures ms[i] <= Union(ms)
  {
    if i > 0 {
      UnionContains(ms[1..], i - 1);
    }
  }

  /** The matches account for all tickets a worker had but the fewer than n it is left with; no ticket is
      lost and none is matched twice. */
  ghost predicate Emptied(lane: Lane, n: nat, l: Lane, ms: seq<set<TicketId>>) {
    && l.waiting == {} && LaneSane(l, n)
    && |Held(lane)| == |ms| * n + |l.progressing|
    && (forall i :: 0 <= i < |ms| ==> |ms[i]| == n)
    && Held(lane) == l.progressing + Union(ms) && l.progressing !! Union(ms) && PairwiseApart(ms)
  }

  /** Left alone, a worker matches n tickets at a time until fewer than n are left, all in progress. */
  lemma {:induction false} DrainedConserves(lane: Lane, n: nat)
    requires n > 0 && LaneSane(lane, n)
    ensures Emptied(lane, n, Drained(lane, n).0, Drained(lane, n).1)
    decreases |lane.waiting|
  {
    if lane.waiting == {} {
      HeldSize(lane);
    } else {
      hide JobMatch, AfterJob, Emptied;
      JobShrinks(lane, n);
      JobMeans(lane, n);
      DrainedConserves(AfterJob(lane, n), n);
      var (l, ms) := Drained(AfterJob(lane, n), n);
      EmptiedOneMore(lane, AfterJob(lane, n), JobMatch(lane, n), n, l, ms);
    }
  }

  lemma EmptiedOneMore(lane: Lane, next: Lane, m: set<TicketId>, n: nat, l: Lane, ms: seq<set<TicketId>>)
    requires Held(lane) == Held(next) + m && Held(next) !! m && (m == {} || |m| == n)
    requires Emptied(next, n, l, ms)
    ensures Emptied(lane, n, l, if m == {} then ms else [m] + ms)
  {
    if m == {} {
      assert Held(next) == Held(lane);
    } else {
      hide Held, Union, PairwiseApart;
      SizeOneMore(Held(lane), Held(next), m, n, |ms|, |l.progressing|);
      DrainedOneMore(next, n, m, ms);
      assert |[m] + ms| == |ms| + 1;
    }
  }

  lemma SizeOneMore(all: set<TicketId>, rest: set<TicketId>, m: set<TicketId>, n: nat, k: nat, r: nat)
    requires all == rest + m && rest !! m && |m| == n && |rest| == k * n + r
    ensures |all| == (k + 1) * n + r
  {
    OneMoreTimes(k, n);
  }

  /** On T tickets that makes exactly T div n matches and leaves T mod n tickets. */
  lemma DrainedCounts(lane: Lane, n: nat)
    requires n > 0 && LaneSane(lane, n)
    ensures |Drained(lane, n).1| == |Held(lane)| / n
    ensures |Drained(lane, n).0.progressing| == |Held(lane)| % n
  {
    DrainedConserves(lane, n);
    QuotientIsUnique(|Held(lane)|, n, |Drained(lane, n).1|, |Drained(lane, n).0.progressing|);
  }

  lemma DrainedOneMore(next: Lane, n: nat, m: set<TicketId>, ms: seq<set<TicketId>>)
    requires |m| == n && Held(next) !! m && Union(ms) <= Held(next) && PairwiseApart(ms)
    requires forall i :: 0 <= i < |ms| ==> |ms[i]| == n
    ensures Union([m] + ms) == m + Union(ms) && PairwiseApart([m] + ms)
    ensures forall i :: 0 <= i < |[m] + ms| ==> |([m] + ms)[i]| == n
  {
    assert ([m] + ms)[1..] == ms;
    forall j | 0 <= j < |ms| ensures m !! ms[j] {
      UnionContains(ms, j);
    }
  }

  lemma OneMoreTimes(k: nat, n: nat)
    ensures (k + 1) * n == k * n + n
  {
  }

  lemma QuotientIsUnique(t: nat, n: nat, q: nat, r: nat)
    requires t == q * n + r && r < n
    ensures q == t / n && r == t % n
  {
    TimesAtLeast(q - t / n, n);
  }

  lemma TimesAtLeast(d: int, n: nat)
    ensures d >= 1 ==> d * n >= n
    ensures d <= -1 ==> d * n <= -(n as int)
  {
  }
}
