/** Integration zones after a match: the zone map, the player index beside it, and the jobs that expire
    zones, on values. */
module Zones {
  import opened Tickets
  import opened Ordered
  import opened TimedQueue
  import opened AsyncJobs

  datatype ZoneKey = ZoneKey(world: int, guid: int)

  /** A live zone: the session of the server that hosts it, the players still in it, and when it was last
      heard of. */
  datatype Zone = Zone(serverSession: int, players: set<PlayerKey>, updated: int)

  datatype Job =
    | Expire(key: ZoneKey)
    | Leave(player: PlayerKey, dodge: bool)
    | ServerClosed(world: int, serverSession: int)

  const EXPIRE_DELAY_MSEC := 10000
  const LEAVE_PENALTY_MSEC := 15000

  datatype Zones = Zones(zones: map<ZoneKey, Zone>, index: map<PlayerKey, ZoneKey>, jobs: Queue<Job>,
                         penalties: seq<(PlayerKey, int)>)

  function ExpiresAt(z: Zone): int {
    z.updated + EXPIRE_DELAY_MSEC
  }

  /** Erasing a zone drops the index entries of its players, whatever zone they name. */
  function AfterErase(s: Zones, key: ZoneKey): Zones {
    if key !in s.zones then s else s.(zones := s.zones - {key}, index := s.index - s.zones[key].players)
  }

  ghost predicate Clashes(s: Zones, players: set<PlayerKey>) {
    exists p :: p in players && p in s.index
  }

  /** A failed insert erases whatever is now stored under the key. */
  ghost function AfterInsert(s: Zones, key: ZoneKey, z: Zone): Zones {
    if key in s.zones then AfterErase(s, key)
    else if Clashes(s, z.players) then s.(index := s.index - z.players)
    else s.(zones := s.zones[key := z], index := s.index + map p | p in z.players :: key,
            jobs := Insert(s.jobs, ExpiresAt(z), Expire(key)))
  }

  /** The index names a stored zone for the player. */
  predicate Finds(s: Zones, p: PlayerKey) {
    p in s.index && s.index[p] in s.zones
  }

  /** A player leaves the zone the index names for him; an empty zone is erased. */
  function AfterRemove(s: Zones, p: PlayerKey): Zones {
    if !Finds(s, p) then s
    else
      var key := s.index[p];
      var z := s.zones[key].(players := s.zones[key].players - {p});
      var s1 := s.(zones := s.zones[key := z]);
      var s2 := if z.players == {} then AfterErase(s1, key) else s1;
      s2.(index := s2.index - {p})
  }

  function AfterLeave(s: Zones, p: PlayerKey, dodge: bool, now: int): Zones {
    if !Finds(s, p) then s
    else
      var s1 := AfterRemove(s, p);
      if dodge then s1.(penalties := s.penalties + [(p, now + LEAVE_PENALTY_MSEC)]) else s1
  }

  /** A leaving player is booked if the index knows a zone for him. */
  function AfterLeaveRequest(s: Zones, p: PlayerKey, dodge: bool, now: int): Zones {
    if !Finds(s, p) then s else s.(jobs := Insert(s.jobs, now, Leave(p, dodge)))
  }

  function AllLeave(s: Zones, players: seq<PlayerKey>, paid: set<PlayerKey>, now: int): Zones {
    if players == [] then s
    else
      var last := players[|players| - 1];
      AfterLeave(AllLeave(s, players[..|players| - 1], paid, now), last, last !in paid, now)
  }

  /** A zone reports its end: its reported players leave, unpaid ones as dodgers, and the zone is erased. */
  function AfterTerminated(s: Zones, key: ZoneKey, players: set<PlayerKey>, paid: set<PlayerKey>, now: int): Zones {
    if key !in s.zones then s else AfterErase(AllLeave(s, Listed(players), paid, now), key)
  }

  function AfterInfoUpdate(s: Zones, key: ZoneKey, now: int): Zones {
    if key !in s.zones then s else s.(zones := s.zones[key := s.zones[key].(updated := now)])
  }

  /** The zones that a closing server takes with it. */
  predicate Hosted(key: ZoneKey, z: Zone, world: int, serverSession: int) {
    key.world == world && z.serverSession >= 0 && serverSession >= 0 && z.serverSession == serverSession
  }

  ghost function AfterServerClosed(s: Zones, world: int, serverSession: int): Zones {
    s.(zones := map key | key in s.zones && !Hosted(key, s.zones[key], world, serverSession) :: s.zones[key],
       index := map p | p in s.index
                        && !(exists key :: key in s.zones && Hosted(key, s.zones[key], world, serverSession)
                                           && p in s.zones[key].players) :: s.index[p])
  }

  /** The expiry job: a zone heard of since gets another one. */
  function AfterExpire(s: Zones, key: ZoneKey, now: int): Zones {
    if key !in s.zones then s
    else if ExpiresAt(s.zones[key]) > now then s.(jobs := Insert(s.jobs, ExpiresAt(s.zones[key]), Expire(key)))
    else AfterErase(s, key)
  }

  ghost function AfterJob(s: Zones, now: int): Zones
    requires s.jobs != []
  {
    var s1 := s.(jobs := s.jobs[1..]);
    match s.jobs[0].1
    case Expire(key) => AfterExpire(s1, key, now)
    case Leave(p, dodge) => AfterLeave(s1, p, dodge, now)
    case ServerClosed(world, serverSession) => AfterServerClosed(s1, world, serverSession)
  }

  datatype Step =
    | Add(key: ZoneKey, serverSession: int, players: set<PlayerKey>)
    | Drop(key: ZoneKey)
    | LeaveRequest(player: PlayerKey, dodge: bool)
    | LeaveNow(player: PlayerKey, dodge: bool)
    | Terminated(key: ZoneKey, players: set<PlayerKey>, paid: set<PlayerKey>)
    | InfoUpdate(key: ZoneKey)
    | ServerClosing(world: int, serverSession: int)
    | RunJob

  ghost function Apply(s: Zones, step: Step, now: int): Zones {
    match step
    case Add(key, serverSession, players) => AfterInsert(s, key, Zone(serverSession, players, now))
    case Drop(key) => AfterErase(s, key)
    case LeaveRequest(p, dodge) => AfterLeaveRequest(s, p, dodge, now)
    case LeaveNow(p, dodge) => AfterLeave(s, p, dodge, now)
    case Terminated(key, players, paid) => AfterTerminated(s, key, players, paid, now)
    case InfoUpdate(key) => AfterInfoUpdate(s, key, now)
    case ServerClosing(world, serverSession) => s.(jobs := Insert(s.jobs, now, ServerClosed(world, serverSession)))
    case RunJob => if Available(s.jobs, now) then AfterJob(s, now) else s
  }

  // ---------- The index ----------

  /** Each index entry names a live zone that still lists that player. */
  ghost predicate Sound(s: Zones) {
    forall p :: p in s.index ==> s.index[p] in s.zones && p in s.zones[s.index[p]].players
  }

  lemma EraseSound(s: Zones, key: ZoneKey)
    requires Sound(s)
    ensures Sound(AfterErase(s, key))
  {
  }

  lemma InsertSound(s: Zones, key: ZoneKey, z: Zone)
    requires Sound(s)
    ensures Sound(AfterInsert(s, key, z))
  {
    EraseSound(s, key);
  }

  lemma RemoveSound(s: Zones, p: PlayerKey)
    requires Sound(s)
    ensures Sound(AfterRemove(s, p))
  {
    if p in s.index {
      var s' := AfterRemove(s, p);
      forall q | q in s'.index ensures s'.index[q] in s'.zones && q in s'.zones[s'.index[q]].players {
        assert q != p && q in s.index;
      }
    }
  }

  lemma LeaveSound(s: Zones, p: PlayerKey, dodge: bool, now: int)
    requires Sound(s)
    ensures Sound(AfterLeave(s, p, dodge, now))
  {
    RemoveSound(s, p);
  }

  lemma {:induction false} AllLeaveSound(s: Zones, players: seq<PlayerKey>, paid: set<PlayerKey>, now: int)
    requires Sound(s)
    ensures Sound(AllLeave(s, players, paid, now))
  {
    if players != [] {
      var last := players[|players| - 1];
      AllLeaveSound(s, players[..|players| - 1], paid, now);
      LeaveSound(AllLeave(s, players[..|players| - 1], paid, now), last, last !in paid, now);
    }
  }

  lemma ServerClosedSound(s: Zones, world: int, serverSession: int)
    requires Sound(s)
    ensures Sound(AfterServerClosed(s, world, serverSession))
  {
  }

  lemma StepSound(s: Zones, step: Step, now: int)
    requires Sound(s)
    ensures Sound(Apply(s, step, now))
  {
    hide AfterInsert, AfterErase, AfterLeave, AllLeave, AfterServerClosed;
    match step
    case Add(key, serverSession, players) => InsertSound(s, key, Zone(serverSession, players, now));
    case Drop(key) => EraseSound(s, key);
    case LeaveRequest(p, dodge) =>
    case LeaveNow(p, dodge) => LeaveSound(s, p, dodge, now);
    case Terminated(key, players, paid) =>
      AllLeaveSound(s, Listed(players), paid, now);
      EraseSound(AllLeave(s, Listed(players), paid, now), key);
    case InfoUpdate(key) =>
    case ServerClosing(world, serverSession) =>
    case RunJob =>
      if Available(s.jobs, now) {
        JobSound(s, now);
      }
  }

  lemma JobSound(s: Zones, now: int)
    requires Sound(s) && s.jobs != []
    ensures Sound(AfterJob(s, now))
  {
    hide AfterErase, AfterLeave, AfterServerClosed;
    var s1 := s.(jobs := s.jobs[1..]);
    match s.jobs[0].1
    case Expire(key) => EraseSound(s1, key);
    case Leave(p, dodge) => LeaveSound(s1, p, dodge, now);
    case ServerClosed(world, serverSession) => ServerClosedSound(s1, world, serverSession);
  }

  /** Erasing a zone leaves no index entry naming it. */
  lemma EraseLeavesNoEntry(s: Zones, key: ZoneKey)
    requires Sound(s)
    ensures key !in AfterErase(s, key).zones
    ensures forall p :: p in AfterErase(s, key).index ==> AfterErase(s, key).index[p] != key
  {
  }

  // ---------- Expiry ----------

  ghost predicate ExpiryBooked(jobs: Queue<Job>, key: ZoneKey, limit: int) {
    exists i :: 0 <= i < |jobs| && jobs[i].1 == Expire(key) && jobs[i].0 <= limit
  }

  /** Every live zone has an expiry job no later than it expires. */
  ghost predicate Watched(s: Zones) {
    InOrder(s.jobs) && forall key :: key in s.zones ==> ExpiryBooked(s.jobs, key, ExpiresAt(s.zones[key]))
  }

  lemma BookedStays(jobs: Queue<Job>, due: int, j: Job)
    requires InOrder(jobs)
    ensures InOrder(Insert(jobs, due, j))
    ensures forall key, limit :: ExpiryBooked(jobs, key, limit) ==> ExpiryBooked(Insert(jobs, due, j), key, limit)
    ensures forall key, limit :: j == Expire(key) && due <= limit ==> ExpiryBooked(Insert(jobs, due, j), key, limit)
  {
    InsertKeepsAll(jobs, due, j);
    var at := InsertPosition(jobs, due, j);
    var more := Insert(jobs, due, j);
    assert more[at] == (due, j);
    forall key, limit | ExpiryBooked(jobs, key, limit) ensures ExpiryBooked(more, key, limit) {
      var i :| 0 <= i < |jobs| && jobs[i].1 == Expire(key) && jobs[i].0 <= limit;
      assert more[if i < at then i else i + 1] == jobs[i];
    }
  }

  lemma BookedLater(jobs: Queue<Job>, key: ZoneKey, limit: int, later: int)
    requires ExpiryBooked(jobs, key, limit) && limit <= later
    ensures ExpiryBooked(jobs, key, later)
  {
  }

  lemma BookedRest(jobs: Queue<Job>, key: ZoneKey, limit: int)
    requires ExpiryBooked(jobs, key, limit) && jobs[0].1 != Expire(key)
    ensures ExpiryBooked(jobs[1..], key, limit)
  {
    var i :| 0 <= i < |jobs| && jobs[i].1 == Expire(key) && jobs[i].0 <= limit;
    assert jobs[1..][i - 1] == jobs[i];
  }

  /** No zone was heard of in the future. */
  ghost predicate Timely(s: Zones, now: int) {
    forall key :: key in s.zones ==> s.zones[key].updated <= now
  }

  /** Zones only leave, or are heard of again, and no job is taken. */
  ghost predicate OnlyLater(s: Zones, s': Zones, now: int) {
    && s'.jobs == s.jobs
    && forall key :: key in s'.zones ==> key in s.zones && s.zones[key].updated <= s'.zones[key].updated <= now
  }

  lemma EraseOnlyLater(s: Zones, key: ZoneKey, now: int)
    requires Timely(s, now)
    ensures OnlyLater(s, AfterErase(s, key), now)
  {
  }

  lemma LeaveOnlyLater(s: Zones, p: PlayerKey, dodge: bool, now: int)
    requires Timely(s, now)
    ensures OnlyLater(s, AfterLeave(s, p, dodge, now), now)
  {
  }

  lemma {:induction false} AllLeaveOnlyLater(s: Zones, players: seq<PlayerKey>, paid: set<PlayerKey>, now: int)
    requires Timely(s, now)
    ensures OnlyLater(s, AllLeave(s, players, paid, now), now)
  {
    hide AfterLeave;
    if players != [] {
      var front, last := players[..|players| - 1], players[|players| - 1];
      AllLeaveOnlyLater(s, front, paid, now);
      LeaveOnlyLater(AllLeave(s, front, paid, now), last, last !in paid, now);
    }
  }

  lemma ServerClosedOnlyLater(s: Zones, world: int, serverSession: int, now: int)
    requires Timely(s, now)
    ensures OnlyLater(s, AfterServerClosed(s, world, serverSession), now)
  {
  }

  lemma WatchedKept(s: Zones, s': Zones, now: int)
    requires Watched(s) && OnlyLater(s, s', now)
    ensures Watched(s') && Timely(s', now)
  {
    forall key | key in s'.zones ensures ExpiryBooked(s'.jobs, key, ExpiresAt(s'.zones[key])) {
      BookedLater(s'.jobs, key, ExpiresAt(s.zones[key]), ExpiresAt(s'.zones[key]));
    }
  }

  lemma BookingKeepsWatch(s: Zones, due: int, j: Job)
    requires Watched(s)
    ensures Watched(s.(jobs := Insert(s.jobs, due, j)))
  {
    hide ExpiryBooked;
    BookedStays(s.jobs, due, j);
  }

  lemma InsertWatched(s: Zones, key: ZoneKey, z: Zone)
    requires Watched(s) && Timely(s, z.updated)
    ensures Watched(AfterInsert(s, key, z)) && Timely(AfterInsert(s, key, z), z.updated)
  {
    hide ExpiryBooked;
    BookedStays(s.jobs, ExpiresAt(z), Expire(key));
  }

  lemma StepWatched(s: Zones, step: Step, now: int)
    requires Watched(s) && Timely(s, now)
    ensures Watched(Apply(s, step, now)) && Timely(Apply(s, step, now), now)
  {
    hide Watched, AfterInsert, AfterErase, AfterLeave, AllLeave, AfterJob, Insert;
    match step
    case Add(key, serverSession, players) => InsertWatched(s, key, Zone(serverSession, players, now));
    case Drop(key) =>
      EraseOnlyLater(s, key, now);
      WatchedKept(s, AfterErase(s, key), now);
    case LeaveRequest(p, dodge) => BookingKeepsWatch(s, now, Leave(p, dodge));
    case LeaveNow(p, dodge) =>
      LeaveOnlyLater(s, p, dodge, now);
      WatchedKept(s, AfterLeave(s, p, dodge, now), now);
    case Terminated(key, players, paid) => TerminatedWatched(s, key, players, paid, now);
    case InfoUpdate(key) => WatchedKept(s, AfterInfoUpdate(s, key, now), now);
    case ServerClosing(world, serverSession) => BookingKeepsWatch(s, now, ServerClosed(world, serverSession));
    case RunJob =>
      if Available(s.jobs, now) {
        JobWatched(s, now);
      }
  }

  lemma TerminatedWatched(s: Zones, key: ZoneKey, players: set<PlayerKey>, paid: set<PlayerKey>, now: int)
    requires Watched(s) && Timely(s, now)
    ensures var s' := AfterTerminated(s, key, players, paid, now); Watched(s') && Timely(s', now)
  {
    hide Watched, AfterErase, AllLeave;
    var s1 := AllLeave(s, Listed(players), paid, now);
    AllLeaveOnlyLater(s, Listed(players), paid, now);
    WatchedKept(s, s1, now);
    EraseOnlyLater(s1, key, now);
    WatchedKept(s1, AfterErase(s1, key), now);
  }

  /** Taking a job leaves every zone watched but the one the job was to expire. */
  lemma TakenWatched(s: Zones)
    requires Watched(s) && s.jobs != []
    ensures InOrder(s.jobs[1..])
    ensures forall k :: k in s.zones && s.jobs[0].1 != Expire(k) ==> ExpiryBooked(s.jobs[1..], k, ExpiresAt(s.zones[k]))
  {
    TailInOrder(s.jobs);
    forall k | k in s.zones && s.jobs[0].1 != Expire(k) ensures ExpiryBooked(s.jobs[1..], k, ExpiresAt(s.zones[k])) {
      BookedRest(s.jobs, k, ExpiresAt(s.zones[k]));
    }
  }

  lemma ExpireWatched(s: Zones, key: ZoneKey, now: int)
    requires InOrder(s.jobs) && Timely(s, now)
    requires forall k :: k in s.zones && k != key ==> ExpiryBooked(s.jobs, k, ExpiresAt(s.zones[k]))
    ensures Watched(AfterExpire(s, key, now)) && Timely(AfterExpire(s, key, now), now)
  {
    hide ExpiryBooked;
    if key in s.zones {
      BookedStays(s.jobs, ExpiresAt(s.zones[key]), Expire(key));
    }
  }

  lemma JobWatched(s: Zones, now: int)
    requires Watched(s) && Timely(s, now) && s.jobs != []
    ensures Watched(AfterJob(s, now)) && Timely(AfterJob(s, now), now)
  {
    hide AfterExpire, AfterLeave, AfterServerClosed, ExpiryBooked, InOrder;
    var s1 := s.(jobs := s.jobs[1..]);
    TakenWatched(s);
    match s.jobs[0].1
    case Expire(key) => ExpireWatched(s1, key, now);
    case Leave(p, dodge) =>
      LeaveOnlyLater(s1, p, dodge, now);
      WatchedKept(s1, AfterLeave(s1, p, dodge, now), now);
    case ServerClosed(world, serverSession) =>
      ServerClosedOnlyLater(s1, world, serverSession, now);
      WatchedKept(s1, AfterServerClosed(s1, world, serverSession), now);
  }

  // ---------- Runs ----------

  /** Handlers run one after the other on a clock that does not go back. */
  ghost predicate IsRun(ss: seq<Zones>, steps: seq<Step>, times: seq<int>) {
    && |ss| == |steps| + 1 && |times| == |steps| && ss[0] == Zones(map[], map[], [], [])
    && (forall i, j :: 0 <= i < j < |times| ==> times[i] <= times[j])
    && forall i :: 0 <= i < |steps| ==> ss[i + 1] == Apply(ss[i], steps[i], times[i])
  }

  /** In every reachable state, whatever inserts have failed, no lookup by player follows a dangling key: the
      index names live zones that still list the player. */
  lemma {:induction false} IndexNeverDangles(ss: seq<Zones>, steps: seq<Step>, times: seq<int>, k: nat)
    requires IsRun(ss, steps, times) && k < |ss|
    ensures forall p :: p in ss[k].index ==> ss[k].index[p] in ss[k].zones && p in ss[k].zones[ss[k].index[p]].players
  {
    if k > 0 {
      IndexNeverDangles(ss, steps, times, k - 1);
      assert ss[k] == Apply(ss[k - 1], steps[k - 1], times[k - 1]);
      StepSound(ss[k - 1], steps[k - 1], times[k - 1]);
    }
  }

  lemma {:induction false} RunStaysWatched(ss: seq<Zones>, steps: seq<Step>, times: seq<int>, k: nat, now: int)
    requires IsRun(ss, steps, times) && k < |ss| && (k > 0 ==> times[k - 1] <= now)
    ensures Watched(ss[k]) && Timely(ss[k], now)
  {
    if k > 0 {
      RunStaysWatched(ss, steps, times, k - 1, times[k - 1]);
      assert ss[k] == Apply(ss[k - 1], steps[k - 1], times[k - 1]);
      StepWatched(ss[k - 1], steps[k - 1], times[k - 1]);
    }
  }

  /** No zone outlives its expiry unnoticed: once no job is due, every live zone was heard of within the
      expiry delay. */
  lemma ZonesExpire(ss: seq<Zones>, steps: seq<Step>, times: seq<int>, k: nat, now: int)
    requires IsRun(ss, steps, times) && k < |ss| && (k > 0 ==> times[k - 1] <= now)
    requires !Available(ss[k].jobs, now)
    ensures forall key :: key in ss[k].zones ==> now < ExpiresAt(ss[k].zones[key])
  {
    RunStaysWatched(ss, steps, times, k, now);
    var s := ss[k];
    forall key | key in s.zones ensures now < ExpiresAt(s.zones[key]) {
      var i :| 0 <= i < |s.jobs| && s.jobs[i].1 == Expire(key) && s.jobs[i].0 <= ExpiresAt(s.zones[key]);
      assert s.jobs[0].0 <= s.jobs[i].0;
    }
  }

  // ---------- Failed inserts ----------

  /** A zone registers exactly if its key is free and none of its players is indexed. */
  ghost predicate Registers(s: Zones, key: ZoneKey, players: set<PlayerKey>) {
    key !in s.zones && !Clashes(s, players)
  }

  lemma InsertRegisters(s: Zones, key: ZoneKey, z: Zone)
    ensures Registers(s, key, z.players) ==>
      var s' := AfterInsert(s, key, z);
      key in s'.zones && s'.zones[key] == z && forall p :: p in z.players ==> p in s'.index && s'.index[p] == key
    ensures !Registers(s, key, z.players) ==> key !in AfterInsert(s, key, z).zones
  {
  }

  /** The completion of a session erases the zone it has just registered if the session may not complete after
      all. That restores both maps; only the expiry job stays booked. */
  lemma EraseUndoesInsert(s: Zones, key: ZoneKey, z: Zone)
    requires Registers(s, key, z.players)
    ensures AfterErase(AfterInsert(s, key, z), key) == s.(jobs := Insert(s.jobs, ExpiresAt(z), Expire(key)))
  {
    var s' := AfterErase(AfterInsert(s, key, z), key);
    assert s'.zones == s.zones;
    forall p | p in s.index ensures p !in z.players {
    }
    assert s'.index == s.index;
  }

  /** What the code does not do: a failed insert never leaves the maps as they were. A clash of keys costs the
      zone that was there, a clash of players costs the clashing player's entry. */
  lemma FailedInsertNeverRestores(s: Zones, key: ZoneKey, z: Zone)
    requires !Registers(s, key, z.players)
    ensures var s' := AfterInsert(s, key, z);
            && !(s'.zones == s.zones && s'.index == s.index)
            && (key in s.zones ==> key !in s'.zones)
            && (key !in s.zones ==>
                  s'.zones == s.zones && forall p :: p in z.players ==> p !in s'.index)
  {
    if key !in s.zones {
      var p :| p in z.players && p in s.index;
      assert p !in AfterInsert(s, key, z).index;
    }
  }

  // ---------- What each handler brings about ----------

  /** Erasing takes out one zone and its players' entries, and nothing else. */
  lemma EraseMeans(s: Zones, key: ZoneKey)
    ensures var s' := AfterErase(s, key);
            && (forall k :: k in s'.zones <==> k in s.zones && k != key)
            && (forall k :: k in s'.zones ==> s'.zones[k] == s.zones[k])
            && (forall p :: p in s'.index <==>
                  p in s.index && !(key in s.zones && p in s.zones[key].players))
            && (forall p :: p in s'.index ==> s'.index[p] == s.index[p])
            && s'.jobs == s.jobs && s'.penalties == s.penalties
  {
  }

  /** A zone that registers leaves the others and their players alone, and its expiry is booked ten seconds after
      it was heard of. */
  lemma InsertMeans(s: Zones, key: ZoneKey, z: Zone)
    requires Registers(s, key, z.players)
    ensures var s' := AfterInsert(s, key, z);
            && s'.zones == s.zones[key := z] && s'.index.Keys == s.index.Keys + z.players
            && (forall p :: p in s'.index ==> s'.index[p] == if p in z.players then key else s.index[p])
            && multiset(s'.jobs) == multiset(s.jobs) + multiset{(z.updated + 10000, Expire(key))}
            && s'.penalties == s.penalties
  {
    InsertKeepsAll(s.jobs, z.updated + 10000, Expire(key));
  }

  /** A player whom the index finds leaves his zone and the index. The zone is erased if he was the last in it,
      and otherwise keeps the rest of its players. Nothing else changes. */
  lemma RemoveMeans(s: Zones, p: PlayerKey)
    requires p in s.index && s.index[p] in s.zones
    ensures var s', key := AfterRemove(s, p), s.index[p];
            && s'.index.Keys == s.index.Keys - {p} && (forall x :: x in s'.index ==> s'.index[x] == s.index[x])
            && (forall k :: k in s.zones && k != key ==> k in s'.zones && s'.zones[k] == s.zones[k])
            && (forall k :: k in s'.zones ==> k in s.zones)
            && (key in s'.zones <==> exists x :: x in s.zones[key].players && x != p)
            && (key in s'.zones ==> s'.zones[key] == s.zones[key].(players := s.zones[key].players - {p}))
            && s'.jobs == s.jobs && s'.penalties == s.penalties
  {
    var key := s.index[p];
    var rest := s.zones[key].players - {p};
    if rest != {} {
      var x := Pick(rest);
      assert x in s.zones[key].players && x != p;
    } else {
      forall x | x in s.zones[key].players ensures x == p {
        assert x == p || x in rest;
      }
    }
  }

  /** Leaving is that, and a dodger whom the index finds is punished for fifteen seconds. A player whom it does not
      find changes nothing. */
  lemma LeaveMeans(s: Zones, p: PlayerKey, dodge: bool, now: int)
    ensures if p in s.index && s.index[p] in s.zones
            then AfterLeave(s, p, dodge, now)
                 == AfterRemove(s, p).(penalties := s.penalties + if dodge then [(p, now + 15000)] else [])
            else AfterLeave(s, p, dodge, now) == s && AfterRemove(s, p) == s
  {
    hide AfterErase;
    RemoveKeepsTheRest(s, p);
  }

  lemma RemoveKeepsTheRest(s: Zones, p: PlayerKey)
    ensures AfterRemove(s, p).penalties == s.penalties && s.penalties + [] == s.penalties
  {
  }

  /** The players of zone k among those listed, by the index. */
  ghost function LeavingFrom(s: Zones, players: seq<PlayerKey>, k: ZoneKey): set<PlayerKey> {
    set p | p in players && p in s.index && s.index[p] == k
  }

  /** Zone k after these players have left it: gone if they leave and nobody stays. */
  ghost predicate LeftBy(s: Zones, s': Zones, k: ZoneKey, leaving: set<PlayerKey>)
    requires k in s.zones
  {
    && (k in s'.zones <==> leaving == {} || s.zones[k].players - leaving != {})
    && (k in s'.zones ==> s'.zones[k] == s.zones[k].(players := s.zones[k].players - leaving))
  }

  lemma LeftByOneMore(s: Zones, s1: Zones, s2: Zones, players: seq<PlayerKey>, p: PlayerKey, k: ZoneKey)
    requires Sound(s) && Sound(s1) && k in s.zones && p !in players && p in s.index && s.index[p] == k
    requires s1.index.Keys == s.index.Keys - ToSet(players) && (forall x :: x in s1.index ==> s1.index[x] == s.index[x])
    requires LeftBy(s, s1, k, LeavingFrom(s, players, k)) && s2 == AfterRemove(s1, p)
    ensures LeftBy(s, s2, k, LeavingFrom(s, players + [p], k))
  {
    var before, after := LeavingFrom(s, players, k), LeavingFrom(s, players + [p], k);
    assert after == before + {p};
    assert p in s1.index && s1.index[p] == k;
    hide LeavingFrom, AfterRemove;
    RemoveMeans(s1, p);
    var rest := s.zones[k].players - before - {p};
    assert s.zones[k].players - after == rest;
    if k in s2.zones {
      var x :| x in s1.zones[k].players && x != p;
      assert x in rest;
    }
    if rest != {} {
      var x := Pick(rest);
      assert x in s1.zones[k].players && x != p;
    }
  }

  /** Each of the listed players whom the index finds leaves his zone; those who have not paid are punished. */
  lemma {:induction false} AllLeaveMeans(s: Zones, players: seq<PlayerKey>, paid: set<PlayerKey>, now: int)
    requires Sound(s) && NoDuplicates(players)
    ensures var s' := AllLeave(s, players, paid, now);
            && s'.index.Keys == s.index.Keys - ToSet(players) && (forall x :: x in s'.index ==> s'.index[x] == s.index[x])
            && (forall k :: k in s.zones ==> LeftBy(s, s', k, LeavingFrom(s, players, k)))
            && (forall k :: k in s'.zones ==> k in s.zones) && s'.jobs == s.jobs
            && s.penalties <= s'.penalties
            && forall p, t :: (p, t) in s'.penalties[|s.penalties|..] <==>
                 p in players && p in s.index && p !in paid && t == now + 15000
  {
    if players != [] {
      var front, last := players[..|players| - 1], players[|players| - 1];
      assert players == front + [last] && last !in front;
      var s1, s2 := AllLeave(s, front, paid, now), AllLeave(s, players, paid, now);
      AllLeaveMeans(s, front, paid, now);
      AllLeaveSound(s, front, paid, now);
      assert s2 == AfterLeave(s1, last, last !in paid, now);
      hide AllLeave, AfterLeave, AfterRemove, Sound, LeftBy, LeavingFrom;
      LastLeaves(s, s1, s2, front, last, last !in paid, now);
      LastPunished(s, s1, s2, front, last, paid, now);
    } else {
      hide LeavingFrom;
      forall k | k in s.zones ensures LeftBy(s, s, k, LeavingFrom(s, players, k)) {
        NobodyLeaves(s, k);
      }
    }
  }

  lemma NobodyLeaves(s: Zones, k: ZoneKey)
    requires k in s.zones
    ensures LeftBy(s, s, k, LeavingFrom(s, [], k))
  {
    assert LeavingFrom(s, [], k) == {};
  }

  lemma LastLeaves(s: Zones, s1: Zones, s2: Zones, front: seq<PlayerKey>, last: PlayerKey, dodge: bool, now: int)
    requires Sound(s) && Sound(s1) && last !in front && s2 == AfterLeave(s1, last, dodge, now)
    requires s1.index.Keys == s.index.Keys - ToSet(front) && (forall x :: x in s1.index ==> s1.index[x] == s.index[x])
    requires forall k :: k in s.zones ==> LeftBy(s, s1, k, LeavingFrom(s, front, k))
    requires forall k :: k in s1.zones ==> k in s.zones
    ensures s2.index.Keys == s.index.Keys - ToSet(front + [last])
    ensures forall x :: x in s2.index ==> s2.index[x] == s.index[x]
    ensures forall k :: k in s.zones ==> LeftBy(s, s2, k, LeavingFrom(s, front + [last], k))
    ensures (forall k :: k in s2.zones ==> k in s.zones) && s2.jobs == s1.jobs
  {
    ConcatToSet(front, [last]);
    assert ToSet([last]) == {last};
    LeaveMeans(s1, last, dodge, now);
    assert last in s1.index <==> last in s.index;
    assert last in s1.index ==> s1.index[last] in s1.zones;
    hide AfterLeave, AfterRemove, LeftBy, LeavingFrom, Sound;
    if last in s1.index {
      RemoveMeans(s1, last);
    }
    forall k | k in s.zones ensures LeftBy(s, s2, k, LeavingFrom(s, front + [last], k)) {
      if last in s.index && s.index[last] == k {
        LeftByOneMore(s, s1, AfterRemove(s1, last), front, last, k);
        SameZones(s, AfterRemove(s1, last), s2, k, LeavingFrom(s, front + [last], k));
      } else {
        SameLeaving(s, front, last, k);
        SameZone(s, s1, s2, k, LeavingFrom(s, front, k));
      }
    }
  }

  lemma SameZones(s: Zones, s1: Zones, s2: Zones, k: ZoneKey, leaving: set<PlayerKey>)
    requires k in s.zones && LeftBy(s, s1, k, leaving) && s2.zones == s1.zones
    ensures LeftBy(s, s2, k, leaving)
  {
  }

  lemma SameZone(s: Zones, s1: Zones, s2: Zones, k: ZoneKey, leaving: set<PlayerKey>)
    requires k in s.zones && LeftBy(s, s1, k, leaving)
    requires (k in s1.zones <==> k in s2.zones) && (k in s1.zones ==> s2.zones[k] == s1.zones[k])
    ensures LeftBy(s, s2, k, leaving)
  {
  }

  lemma SameLeaving(s: Zones, front: seq<PlayerKey>, last: PlayerKey, k: ZoneKey)
    requires !(last in s.index && s.index[last] == k)
    ensures LeavingFrom(s, front + [last], k) == LeavingFrom(s, front, k)
  {
  }

  lemma LastPunished(s: Zones, s1: Zones, s2: Zones, front: seq<PlayerKey>, last: PlayerKey, paid: set<PlayerKey>, now: int)
    requires Sound(s1) && last !in front && s2 == AfterLeave(s1, last, last !in paid, now)
    requires s1.index.Keys == s.index.Keys - ToSet(front) && s.penalties <= s1.penalties
    requires forall p, t :: (p, t) in s1.penalties[|s.penalties|..] <==>
               p in front && p in s.index && p !in paid && t == now + 15000
    ensures s.penalties <= s2.penalties
    ensures forall p, t :: (p, t) in s2.penalties[|s.penalties|..] <==>
              p in front + [last] && p in s.index && p !in paid && t == now + 15000
  {
    assert last in s1.index <==> last in s.index;
    LeaveMeans(s1, last, last !in paid, now);
    if last in s.index && last !in paid {
      assert s2.penalties[|s.penalties|..] == s1.penalties[|s.penalties|..] + [(last, now + 15000)];
    } else {
      assert s2.penalties == s1.penalties;
    }
  }

  /** A zone that ends is gone, and none of the reported players is indexed any more, nor anybody it listed. */
  lemma TerminatedMeans(s: Zones, key: ZoneKey, players: set<PlayerKey>, paid: set<PlayerKey>, now: int)
    requires Sound(s)
    ensures var s' := AfterTerminated(s, key, players, paid, now);
            if key !in s.zones then s' == s
            else && key !in s'.zones
                 && (forall p :: p in s'.index ==> p in s.index && s'.index[p] == s.index[p] && p !in players)
                 && (forall p :: p in s.index && p !in players && p !in s.zones[key].players ==> p in s'.index)
                 && (forall k :: k in s'.zones ==> k in s.zones && k != key)
                 && (forall k :: k in s.zones && k != key ==> LeftBy(s, s', k, LeavingFrom(s, Listed(players), k)))
                 && s.penalties <= s'.penalties
                 && forall p, t :: (p, t) in s'.penalties[|s.penalties|..] <==>
                      p in players && p in s.index && p !in paid && t == now + 15000
  {
    hide AllLeave, AfterErase, LeavingFrom, Sound;
    var list := Listed(players);
    assert forall p :: p in list <==> p in ToSet(list);
    var s1 := AllLeave(s, list, paid, now);
    AllLeaveMeans(s, list, paid, now);
    EraseMeans(s1, key);
  }

  /** What a leave request, a report and a closing server change. */
  lemma RequestsMean(s: Zones, p: PlayerKey, dodge: bool, key: ZoneKey, world: int, serverSession: int, now: int)
    ensures AfterLeaveRequest(s, p, dodge, now)
         == s.(jobs := if p in s.index && s.index[p] in s.zones then Insert(s.jobs, now, Leave(p, dodge)) else s.jobs)
    ensures AfterInfoUpdate(s, key, now)
         == s.(zones := if key in s.zones then s.zones[key := s.zones[key].(updated := now)] else s.zones)
    ensures Apply(s, ServerClosing(world, serverSession), now)
         == s.(jobs := Insert(s.jobs, now, ServerClosed(world, serverSession)))
  {
  }

  /** A server that has closed takes exactly the zones of its world and session with it, unless a session number is
      negative, and exactly their players' entries. */
  lemma ServerClosedMeans(s: Zones, world: int, serverSession: int)
    requires Sound(s)
    ensures var s' := AfterServerClosed(s, world, serverSession);
            && (forall k :: k in s'.zones <==>
                  k in s.zones && !(k.world == world && s.zones[k].serverSession == serverSession && serverSession >= 0))
            && (forall k :: k in s'.zones ==> s'.zones[k] == s.zones[k])
            && (forall p :: p in s'.index ==> p in s.index && s'.index[p] == s.index[p] && s.index[p] in s'.zones)
            && (forall p :: p in s.index && p !in s'.index ==>
                  exists k :: k in s.zones && k !in s'.zones && p in s.zones[k].players)
            && s'.jobs == s.jobs && s'.penalties == s.penalties
  {
  }

  /** An expiry job erases its zone exactly if that was not heard of for ten seconds, and otherwise comes back when
      that will be so. */
  lemma ExpireMeans(s: Zones, key: ZoneKey, now: int)
    ensures AfterExpire(s, key, now)
         == if key !in s.zones then s
            else if s.zones[key].updated + 10000 <= now then AfterErase(s, key)
            else s.(jobs := Insert(s.jobs, s.zones[key].updated + 10000, Expire(key)))
  {
  }

  /** Each job runs its own handler, once, when it is due. */
  lemma JobRuns(s: Zones, now: int)
    ensures if s.jobs == [] || s.jobs[0].0 > now then Apply(s, RunJob, now) == s
            else var s1 := s.(jobs := s.jobs[1..]);
                 match s.jobs[0].1
                 case Expire(key) => Apply(s, RunJob, now) == AfterExpire(s1, key, now)
                 case Leave(p, dodge) => Apply(s, RunJob, now) == AfterLeave(s1, p, dodge, now)
                 case ServerClosed(world, session) => Apply(s, RunJob, now) == AfterServerClosed(s1, world, session)
  {
  }
}
