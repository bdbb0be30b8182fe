/** The zone manager on its zone objects: each handler is proved to be the corresponding handler of Zones. */
module ZoneManagers {
  import opened Tickets
  import opened Ordered
  import opened TimedQueue
  import opened AsyncJobs
  import opened Zones

  class ZoneInstance {
    const key: ZoneKey
    const serverSession: int
    var players: set<PlayerKey>
    var updated: int

    constructor (key: ZoneKey, serverSession: int, players: set<PlayerKey>, now: int)
      ensures this.key == key && this.serverSession == serverSession && this.players == players && updated == now
    {
      this.key, this.serverSession, this.players, updated := key, serverSession, players, now;
    }

    function GetExpireTimeMsec(): int
      reads `updated
    {
      updated + EXPIRE_DELAY_MSEC
    }
  }

  function Indexed(index: map<PlayerKey, ZoneKey>, players: set<PlayerKey>, key: ZoneKey): map<PlayerKey, ZoneKey> {
    index + map p | p in players :: key
  }

  /** Claims the players one by one, and stops at the first who is indexed already. */
  method IndexPlayers(index: map<PlayerKey, ZoneKey>, players: set<PlayerKey>, key: ZoneKey)
    returns (ok: bool, index': map<PlayerKey, ZoneKey>)
    ensures ok <==> players !! index.Keys
    ensures ok ==> index' == Indexed(index, players, key)
    ensures !ok ==> index' - players == index - players
  {
    hide Indexed;
    index' := index;
    var list := Listed(players);
    NobodyIndexed(index, key);
    assert list[..0] == [];
    for i := 0 to |list|
      invariant ToSet(list[..i]) !! index.Keys
      invariant index' == Indexed(index, ToSet(list[..i]), key)
    {
      NextOnList(list, i);
      IndexedOneMore(index, ToSet(list[..i]), list[i], key);
      if list[i] in index' {
        IndexedThenDropped(index, ToSet(list[..i]), players, key);
        assert list[i] in players;
        return false, index';
      }
      index' := index'[list[i] := key];
    }
    assert list[..|list|] == list;
    return true, index';
  }

  lemma NobodyIndexed(index: map<PlayerKey, ZoneKey>, key: ZoneKey)
    ensures Indexed(index, {}, key) == index && ToSet<PlayerKey>([]) == {}
  {
  }

  lemma NextOnList(list: seq<PlayerKey>, i: nat)
    requires NoDuplicates(list) && i < |list|
    ensures list[i] in ToSet(list) && list[i] !in ToSet(list[..i]) && ToSet(list[..i]) <= ToSet(list)
    ensures ToSet(list[..i + 1]) == ToSet(list[..i]) + {list[i]}
  {
    assert list[..i + 1] == list[..i] + [list[i]];
  }

  lemma IndexedOneMore(index: map<PlayerKey, ZoneKey>, players: set<PlayerKey>, p: PlayerKey, key: ZoneKey)
    ensures Indexed(index, players, key)[p := key] == Indexed(index, players + {p}, key)
    ensures p in Indexed(index, players, key) <==> p in index || p in players
  {
  }

  lemma IndexedThenDropped(index: map<PlayerKey, ZoneKey>, some: set<PlayerKey>, players: set<PlayerKey>, key: ZoneKey)
    requires some <= players
    ensures Indexed(index, some, key) - players == index - players
  {
  }

  /** Drops the players' entries, whatever they name. */
  method UnindexPlayers(index: map<PlayerKey, ZoneKey>, players: set<PlayerKey>) returns (index': map<PlayerKey, ZoneKey>)
    ensures index' == index - players
  {
    index' := index;
    var list := Listed(players);
    for i := 0 to |list|
      invariant index' == index - ToSet(list[..i])
    {
      assert list[..i + 1] == list[..i] + [list[i]];
      assert ToSet(list[..i + 1]) == ToSet(list[..i]) + {list[i]};
      index' := index' - {list[i]};
    }
    assert list[..|list|] == list;
  }

  class IntegrationZoneInstanceManager {
    var zones: map<ZoneKey, ZoneInstance>
    var byPlayer: map<PlayerKey, ZoneKey>
    const worker: AsyncJobWorker<Job>
    var penalties: seq<(PlayerKey, int)>

    constructor ()
      ensures Valid() && fresh(worker) && State() == Zones(map[], map[], [], [])
    {
      worker := new AsyncJobWorker();
      zones, byPlayer, penalties := map[], map[], [];
    }

    ghost predicate Valid()
      reads `zones, worker
    {
      worker.Valid() && forall k :: k in zones ==> zones[k].key == k
    }

    ghost function ZoneSet(): set<ZoneInstance>
      reads `zones
    {
      set k | k in zones :: zones[k]
    }

    ghost function ZoneState(k: ZoneKey): Zone
      requires k in zones
      reads `zones, ZoneSet()`players, ZoneSet()`updated
    {
      Zone(zones[k].serverSession, zones[k].players, zones[k].updated)
    }

    ghost function ZoneStates(): map<ZoneKey, Zone>
      reads `zones, ZoneSet()`players, ZoneSet()`updated
    {
      map k | k in zones :: ZoneState(k)
    }

    ghost function State(): Zones
      reads this, worker, ZoneSet()`players, ZoneSet()`updated
    {
      Zones(ZoneStates(), byPlayer, worker.waiting, penalties)
    }

    lemma StateMeans()
      ensures State().zones.Keys == zones.Keys
      ensures forall k :: k in zones ==> State().zones[k] == ZoneState(k) && zones[k] in ZoneSet()
    {
    }

    lemma ZonesAre(want: map<ZoneKey, Zone>)
      requires want.Keys == zones.Keys && forall k :: k in zones ==> want[k] == ZoneState(k)
      ensures ZoneStates() == want
    {
    }

    method DoAsyncJob(due: int, job: Job)
      requires Valid()
      modifies worker
      ensures Valid()
      ensures State() == old(State()).(jobs := TimedQueue.Insert(old(State()).jobs, due, job))
    {
      worker.EnqueueJobRequest(due, job);
    }

    method Erase(key: ZoneKey) returns (found: bool)
      requires Valid()
      modifies `zones, `byPlayer
      ensures Valid() && (found <==> key in old(zones)) && zones == old(zones) - {key}
      ensures State() == AfterErase(old(State()), key)
    {
      hide ZoneStates;
      StateMeans();
      if key !in zones {
        assert zones - {key} == zones;
        return false;
      }
      ghost var s := State();
      var zone := zones[key];
      zones := zones - {key};
      byPlayer := UnindexPlayers(byPlayer, zone.players);
      ZonesAre(s.zones - {key});
      return true;
    }

    /** Registers a new zone. When its key or one of its players is taken, whatever is stored under the key
        afterwards is erased again, the resident of a clashing key included. */
    method Insert(key: ZoneKey, serverSession: int, players: set<PlayerKey>, now: int) returns (ok: bool)
      requires Valid()
      modifies `zones, `byPlayer, worker
      ensures Valid()
      ensures ok <==> Registers(old(State()), key, players)
      ensures State() == AfterInsert(old(State()), key, Zone(serverSession, players, now))
    {
      hide ZoneStates, AfterErase;
      StateMeans();
      ghost var s := State();
      if key in zones {
        var _ := Erase(key);
        return false;
      }
      var zone := new ZoneInstance(key, serverSession, players, now);
      zones := zones[key := zone];
      ok, byPlayer := IndexPlayers(byPlayer, players, key);
      ZonesAre(s.zones[key := Zone(serverSession, players, now)]);
      ClashesMeans(s, players);
      if !ok {
        UndoneInsert(s, State(), key, Zone(serverSession, players, now));
        var _ := Erase(key);
        return;
      }
      DoAsyncJob(zone.GetExpireTimeMsec(), Expire(key));
    }

    /** Which zone the index names for a player. */
    method FindByPlayerKey(p: PlayerKey) returns (found: bool, key: ZoneKey)
      ensures found <==> Finds(State(), p)
      ensures found ==> key in zones && key == State().index[p]
    {
      StateMeans();
      if p !in byPlayer {
        return false, ZoneKey(0, 0);
      }
      return byPlayer[p] in zones, byPlayer[p];
    }

    /** A player's session ends; the zone goes with its last player. */
    method EraseByPlayerKey(p: PlayerKey) returns (found: bool)
      requires Valid()
      modifies `zones, `byPlayer, ZoneSet()`players
      ensures Valid() && ZoneSet() <= old(ZoneSet())
      ensures found <==> Finds(old(State()), p)
      ensures State() == AfterRemove(old(State()), p)
    {
      hide ZoneStates, AfterErase;
      StateMeans();
      ghost var s := State();
      var key;
      found, key := FindByPlayerKey(p);
      if !found {
        return;
      }
      RemovePlayerSession(key, zones[key], p);
      StateMeans();
      if zones[key].players == {} {
        var _ := Erase(key);
      }
      Unindex(p);
    }

    method Unindex(p: PlayerKey)
      requires Valid()
      modifies `byPlayer
      ensures Valid() && State() == old(State()).(index := old(State()).index - {p})
    {
      byPlayer := byPlayer - {p};
    }

    method RemovePlayerSession(key: ZoneKey, zone: ZoneInstance, p: PlayerKey)
      requires Valid() && key in zones && zones[key] == zone
      modifies zone`players
      ensures Valid() && key in old(State()).zones
      ensures var z := old(State()).zones[key];
              State() == old(State()).(zones := old(State()).zones[key := z.(players := z.players - {p})])
    {
      hide ZoneStates;
      StateMeans();
      ghost var s := State();
      zone.players := zone.players - {p};
      forall k | k in zones && k != key ensures ZoneState(k) == s.zones[k] {
        assert zones[k].key != zone.key;
      }
      ZonesAre(s.zones[key := s.zones[key].(players := s.zones[key].players - {p})]);
    }

    method AddDodgePenalty(p: PlayerKey, until: int)
      requires Valid()
      modifies `penalties
      ensures Valid() && State() == old(State()).(penalties := old(State()).penalties + [(p, until)])
    {
      penalties := penalties + [(p, until)];
    }

    /** A player has left; a dodger is punished. */
    method PlayerLeaved(p: PlayerKey, dodge: bool, now: int)
      requires Valid()
      modifies `zones, `byPlayer, `penalties, ZoneSet()`players
      ensures Valid() && ZoneSet() <= old(ZoneSet())
      ensures State() == AfterLeave(old(State()), p, dodge, now)
    {
      hide State, AfterRemove;
      RemoveKeepsPenalties(State(), p);
      var found := EraseByPlayerKey(p);
      if !found {
        return;
      }
      if dodge {
        AddDodgePenalty(p, now + LEAVE_PENALTY_MSEC);
      }
    }

    /** Books a player's leaving, if he is indexed. */
    method PlayerLeaveRequest(p: PlayerKey, dodge: bool, now: int) returns (ok: bool)
      requires Valid()
      modifies worker
      ensures Valid()
      ensures ok <==> Finds(old(State()), p)
      ensures State() == AfterLeaveRequest(old(State()), p, dodge, now)
    {
      var key;
      ok, key := FindByPlayerKey(p);
      if ok {
        DoAsyncJob(now, Leave(p, dodge));
      }
    }

    method ZoneInstanceTerminated(key: ZoneKey, players: set<PlayerKey>, paid: set<PlayerKey>, now: int)
      requires Valid()
      modifies `zones, `byPlayer, `penalties, ZoneSet()`players
      ensures Valid() && ZoneSet() <= old(ZoneSet())
      ensures State() == AfterTerminated(old(State()), key, players, paid, now)
    {
      StateMeans();
      hide State, AfterLeave, AfterErase;
      ghost var s := State();
      if key !in zones {
        return;
      }
      var list := Listed(players);
      for i := 0 to |list|
        invariant Valid() && ZoneSet() <= old(ZoneSet())
        invariant State() == AllLeave(s, list[..i], paid, now)
      {
        assert list[..i + 1][..i] == list[..i];
        PlayerLeaved(list[i], list[i] !in paid, now);
      }
      assert list[..|list|] == list;
      ghost var before := zones;
      var _ := Erase(key);
      assert ZoneSet() <= old(ZoneSet());
    }

    method ZoneInstanceInfoUpdated(key: ZoneKey, now: int)
      requires Valid()
      modifies ZoneSet()`updated
      ensures Valid()
      ensures State() == AfterInfoUpdate(old(State()), key, now)
    {
      hide ZoneStates;
      StateMeans();
      ghost var s := State();
      if key !in zones {
        return;
      }
      var zone := zones[key];
      zone.updated := now;
      forall k | k in zones && k != key ensures ZoneState(k) == s.zones[k] {
        assert zones[k].key != zone.key;
      }
      ZonesAre(AfterInfoUpdate(s, key, now).zones);
    }

    /** A server has gone: every zone it hosted goes with it, in whatever order they come up. */
    method IntegrationServerClosedAsync(serverSession: int, world: int)
      requires Valid()
      modifies `zones, `byPlayer
      ensures Valid() && ZoneSet() <= old(ZoneSet())
      ensures State() == AfterServerClosed(old(State()), world, serverSession)
    {
      StateMeans();
      hide State, AfterErase;
      ghost var s := State();
      var snapshot := zones;
      var rest := snapshot.Keys;
      ClosedNone(s, world, serverSession);
      assert snapshot.Keys - rest == {};
      while rest != {}
        invariant rest <= snapshot.Keys && Valid() && ZoneSet() <= old(ZoneSet())
        invariant State() == ClosedAmong(s, snapshot.Keys - rest, world, serverSession)
      {
        var key :| key in rest;
        var zone := snapshot[key];
        assert s.zones[key].serverSession == zone.serverSession && zone.key == key;
        ClosedOneMore(s, snapshot.Keys - rest, key, world, serverSession);
        if zone.key.world == world && zone.serverSession >= 0 && serverSession >= 0
           && zone.serverSession == serverSession {
          var _ := Erase(zone.key);
        }
        assert snapshot.Keys - rest + {key} == snapshot.Keys - (rest - {key});
        rest := rest - {key};
      }
      assert snapshot.Keys - rest == s.zones.Keys;
      ClosedAll(s, world, serverSession);
    }

    /** The expiry job of a zone. */
    method ZoneInstanceExpireAsync(key: ZoneKey, now: int)
      requires Valid()
      modifies `zones, `byPlayer, worker
      ensures Valid() && ZoneSet() <= old(ZoneSet())
      ensures State() == AfterExpire(old(State()), key, now)
    {
      StateMeans();
      hide State, AfterErase;
      if key !in zones {
        return;
      }
      var zone := zones[key];
      if zone.GetExpireTimeMsec() > now {
        DoAsyncJob(zone.GetExpireTimeMsec(), Expire(key));
        return;
      }
      var _ := Erase(key);
    }

    /** Runs the first job if it is due. */
    method RunJob(now: int)
      requires Valid()
      modifies `zones, `byPlayer, worker, `penalties, ZoneSet()`players
      ensures Valid()
      ensures State() == if Available(old(worker.waiting), now) then AfterJob(old(State()), now) else old(State())
    {
      JobsMean();
      hide State, AfterExpire, AfterLeave, AfterServerClosed;
      var job := TakeJob(now);
      if job == [] {
        return;
      }
      match job[0] {
        case Expire(key) => ZoneInstanceExpireAsync(key, now);
        case Leave(p, dodge) => PlayerLeaved(p, dodge, now);
        case ServerClosed(world, serverSession) => IntegrationServerClosedAsync(serverSession, world);
      }
    }

    lemma JobsMean()
      ensures State().jobs == worker.waiting
    {
    }

    /** The worker hands over its first job, if that is due. */
    method TakeJob(now: int) returns (job: seq<Job>)
      requires Valid()
      modifies worker
      ensures Valid()
      ensures job == if Available(old(worker.waiting), now) then [old(worker.waiting)[0].1] else []
      ensures State() == if job == [] then old(State()) else old(State()).(jobs := old(worker.waiting)[1..])
    {
      job := worker.DoWorkerAsyncJob(now);
    }

    /** No job that this manager booked is lost, runs twice or runs early. */
    lemma JobsAccounted()
      requires Valid()
      ensures multiset(worker.waiting) + Fulfilled(worker.ran) == Booked(worker.history) && InOrder(State().jobs)
      ensures forall k :: 0 <= k < |worker.ran| ==> worker.ran[k].due <= worker.ran[k].at
    {
      worker.Accounted();
    }
  }

  lemma RemoveKeepsPenalties(s: Zones, p: PlayerKey)
    ensures AfterRemove(s, p).penalties == s.penalties
    ensures !Finds(s, p) ==> AfterRemove(s, p) == s
  {
  }

  /** A closing server's zones among the given keys are gone. */
  ghost function ClosedAmong(s: Zones, keys: set<ZoneKey>, world: int, serverSession: int): Zones {
    s.(zones := map key | key in s.zones && !(key in keys && Hosted(key, s.zones[key], world, serverSession))
                :: s.zones[key],
       index := map p | p in s.index
                        && !(exists key :: key in keys && key in s.zones
                                           && Hosted(key, s.zones[key], world, serverSession)
                                           && p in s.zones[key].players) :: s.index[p])
  }

  lemma ClosedNone(s: Zones, world: int, serverSession: int)
    ensures ClosedAmong(s, {}, world, serverSession) == s
  {
  }

  lemma ClosedAll(s: Zones, world: int, serverSession: int)
    ensures ClosedAmong(s, s.zones.Keys, world, serverSession) == AfterServerClosed(s, world, serverSession)
  {
  }

  lemma ClosedOneMore(s: Zones, keys: set<ZoneKey>, key: ZoneKey, world: int, serverSession: int)
    requires key in s.zones && key !in keys
    ensures var s1 := ClosedAmong(s, keys, world, serverSession);
            ClosedAmong(s, keys + {key}, world, serverSession)
            == if Hosted(key, s.zones[key], world, serverSession) then AfterErase(s1, key) else s1
  {
    var s1, s2 := ClosedAmong(s, keys, world, serverSession), ClosedAmong(s, keys + {key}, world, serverSession);
    if Hosted(key, s.zones[key], world, serverSession) {
      assert s2.zones == s1.zones - {key};
      assert s2.index == s1.index - s.zones[key].players;
    } else {
      assert s2.zones == s1.zones;
      assert s2.index == s1.index;
    }
  }

  lemma ClashesMeans(s: Zones, players: set<PlayerKey>)
    ensures Clashes(s, players) <==> !(players !! s.index.Keys)
  {
    if !Clashes(s, players) {
      forall p | p in players ensures p !in s.index.Keys {
      }
    }
  }

  /** Erasing a zone whose players could not all be claimed. */
  lemma UndoneInsert(s: Zones, s1: Zones, key: ZoneKey, z: Zone)
    requires key !in s.zones && s1 == s.(zones := s.zones[key := z], index := s1.index) && Clashes(s, z.players)
    requires s1.index - z.players == s.index - z.players
    ensures AfterErase(s1, key) == AfterInsert(s, key, z)
  {
    assert s1.zones - {key} == s.zones;
  }
}
