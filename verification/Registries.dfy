/** Player indexes: which entry of a registry each player belongs to. Both ticket registries and the
    session registry keep one beside their entries, with the same insert and erase. */
module Registries {
  import opened Tickets
  import opened Ordered

  type Index = map<PlayerKey, int>

  function Claimed(index: Index, players: set<PlayerKey>, id: int): Index {
    index + map p | p in players :: id
  }

  /** Only the players' own entries for this id are given up. */
  function Released(index: Index, players: set<PlayerKey>, id: int): Index {
    map p | p in index && !(p in players && index[p] == id) :: index[p]
  }

  /** The index is exactly the inverse of the entries' player sets. */
  ghost predicate Inverse(index: Index, members: map<int, set<PlayerKey>>) {
    && (forall p :: p in index ==> index[p] in members && p in members[index[p]])
    && (forall id, p :: id in members && p in members[id] ==> p in index && index[p] == id)
  }

  lemma ClaimKeepsInverse(index: Index, members: map<int, set<PlayerKey>>, players: set<PlayerKey>, id: int)
    requires Inverse(index, members) && id !in members && players !! index.Keys
    ensures Inverse(Claimed(index, players, id), members[id := players])
  {
  }

  lemma ReleaseKeepsInverse(index: Index, members: map<int, set<PlayerKey>>, id: int)
    requires Inverse(index, members) && id in members
    ensures Inverse(Released(index, members[id], id), members - {id})
  {
  }

  /** Hence a player belongs to at most one entry. */
  lemma InverseSeparates(index: Index, members: map<int, set<PlayerKey>>, a: int, b: int)
    requires Inverse(index, members) && a in members && b in members && a != b
    ensures members[a] !! members[b]
  {
    forall p | p in members[a] ensures p !in members[b] {
      assert index[p] == a;
    }
  }

  /** The entries determine the index, so restoring the entries of an exact registry restores its index. */
  lemma InverseIsUnique(index: Index, index': Index, members: map<int, set<PlayerKey>>)
    requires Inverse(index, members) && Inverse(index', members)
    ensures index == index'
  {
    forall p ensures p in index ==> p in index' && index'[p] == index[p] {
      if p in index {
        var id := index[p];
        assert id in members && p in members[id];
      }
    }
    forall p ensures p in index' ==> p in index {
      if p in index' {
        var id := index'[p];
        assert id in members && p in members[id];
      }
    }
  }

  /** Claims players one by one; at the first player already claimed, all claims made so far are undone. */
  method ClaimPlayers(index: Index, players: seq<PlayerKey>, id: int) returns (ok: bool, index': Index)
    ensures ok <==> NoDuplicates(players) && ToSet(players) !! index.Keys
    ensures index' == if ok then Claimed(index, ToSet(players), id) else index
    ensures ok ==> forall p :: (p in index' <==> p in index || p in players)
                               && (p in index' ==> index'[p] == if p in players then id else index[p])
  {
    index' := index;
    var inserted: seq<PlayerKey> := [];
    for i := 0 to |players|
      invariant inserted == players[..i]
      invariant NoDuplicates(inserted) && ToSet(inserted) !! index.Keys
      invariant index' == Claimed(index, ToSet(inserted), id)
    {
      if players[i] in index' {
        index' := UndoClaims(index, index', inserted, id);
        ClashingPlayer(index, players, i);
        return false, index';
      }
      assert players[..i + 1] == players[..i] + [players[i]];
      ClaimedOneMore(index, inserted, players[i], id);
      index' := index'[players[i] := id];
      inserted := inserted + [players[i]];
    }
    assert players[..|players|] == players;
    return true, index';
  }

  lemma ClashingPlayer(index: Index, players: seq<PlayerKey>, i: nat)
    requires i < |players| && (players[i] in index || players[i] in players[..i])
    ensures !(NoDuplicates(players) && ToSet(players) !! index.Keys)
  {
    if players[i] in index {
      assert players[i] in ToSet(players);
    }
  }

  lemma ClaimedOneMore(index: Index, inserted: seq<PlayerKey>, p: PlayerKey, id: int)
    requires NoDuplicates(inserted) && ToSet(inserted) !! index.Keys
    requires p !in Claimed(index, ToSet(inserted), id)
    ensures NoDuplicates(inserted + [p]) && ToSet(inserted + [p]) !! index.Keys
    ensures Claimed(index, ToSet(inserted), id)[p := id] == Claimed(index, ToSet(inserted + [p]), id)
  {
    assert p !in ToSet(inserted) && p !in index;
    assert ToSet(inserted + [p]) == ToSet(inserted) + {p};
    ClaimOne(index, ToSet(inserted), p, id);
  }

  lemma ClaimOne(index: Index, players: set<PlayerKey>, p: PlayerKey, id: int)
    ensures Claimed(index, players, id)[p := id] == Claimed(index, players + {p}, id)
  {
  }

  method UndoClaims(ghost before: Index, claimed: Index, inserted: seq<PlayerKey>, ghost id: int) returns (index': Index)
    requires ToSet(inserted) !! before.Keys && claimed == Claimed(before, ToSet(inserted), id)
    ensures index' == before
  {
    index' := claimed;
    for j := 0 to |inserted|
      invariant index' == claimed - ToSet(inserted[..j])
    {
      assert ToSet(inserted[..j + 1]) == ToSet(inserted[..j]) + {inserted[j]};
      index' := index' - {inserted[j]};
    }
    assert inserted[..|inserted|] == inserted;
  }

  /** Gives up the listed players' entries for this id, and no others. */
  method ReleasePlayers(index: Index, players: seq<PlayerKey>, id: int) returns (index': Index)
    ensures index' == Released(index, ToSet(players), id)
    ensures forall p :: (p in index' <==> p in index && !(p in players && index[p] == id))
                        && (p in index' ==> index'[p] == index[p])
  {
    index' := index;
    for i := 0 to |players|
      invariant index' == Released(index, ToSet(players[..i]), id)
    {
      assert ToSet(players[..i + 1]) == ToSet(players[..i]) + {players[i]};
      if players[i] in index' && index'[players[i]] == id {
        index' := index' - {players[i]};
      }
    }
    assert players[..|players|] == players;
  }

  /** The registry of one matchmaking manager. */
  class TicketRegistry {
    var tickets: map<TicketId, Ticket>
    var byPlayer: Index

    constructor ()
      ensures Valid() && tickets == map[] && byPlayer == map[]
    {
      tickets, byPlayer := map[], map[];
    }

    ghost function Members(): map<int, set<PlayerKey>>
      reads this
    {
      map id | id in tickets :: tickets[id].players
    }

    ghost predicate Valid()
      reads this
    {
      (forall id :: id in tickets ==> tickets[id].id == id) && Inverse(byPlayer, Members())
    }

    /** A player is claimed exactly if a registered ticket lists him. */
    lemma ClaimedMeans(players: set<PlayerKey>)
      requires Valid()
      ensures (exists id :: id in tickets && tickets[id].players * players != {}) <==> !(players !! byPlayer.Keys)
    {
      if players * byPlayer.Keys == {} {
        forall p | p in players ensures p !in byPlayer.Keys {
          assert p in byPlayer.Keys ==> p in players * byPlayer.Keys;
        }
      }
      var members := Members();
      if players * byPlayer.Keys != {} {
        var p := Pick(players * byPlayer.Keys);
        var id := byPlayer[p];
        assert id in members && p in members[id];
        assert p in tickets[id].players * players;
      }
      forall id | id in tickets && tickets[id].players * players != {} ensures !(players !! byPlayer.Keys) {
        var p := Pick(tickets[id].players * players);
        assert id in members && p in members[id];
        assert p in players * byPlayer.Keys;
      }
    }

    /** Inserting fails if the id or any player is registered already, and then restores both maps. */
    method Insert(ticket: Ticket) returns (ok: bool)
      requires Valid()
      modifies this
      ensures Valid()
      ensures ok <==> ticket.id !in old(tickets) && ticket.players !! old(byPlayer).Keys
      ensures tickets == if ok then old(tickets)[ticket.id := ticket] else old(tickets)
      ensures byPlayer == if ok then Claimed(old(byPlayer), ticket.players, ticket.id) else old(byPlayer)
    {
      hide Inverse, Claimed;
      var id := ticket.id;
      if id in tickets {
        return false;
      }
      ghost var members := Members();
      tickets := tickets[id := ticket];
      ok, byPlayer := ClaimPlayers(byPlayer, Listed(ticket.players), id);
      if !ok {
        tickets := tickets - {id};
        assert tickets == old(tickets);
        return;
      }
      ClaimKeepsInverse(old(byPlayer), members, ticket.players, id);
      assert Members() == members[id := ticket.players];
    }

    /** Erasing takes the ticket out together with exactly its players' entries. */
    method Erase(id: TicketId) returns (found: bool)
      requires Valid()
      modifies this
      ensures Valid()
      ensures found <==> id in old(tickets)
      ensures tickets == old(tickets) - {id}
      ensures byPlayer == if found then Released(old(byPlayer), old(tickets)[id].players, id) else old(byPlayer)
    {
      hide Inverse, Released;
      if id !in tickets {
        return false;
      }
      ghost var members := Members();
      var ticket := tickets[id];
      tickets := tickets - {id};
      byPlayer := ReleasePlayers(byPlayer, Listed(ticket.players), id);
      ReleaseKeepsInverse(old(byPlayer), members, id);
      assert Members() == members - {id};
      return true;
    }

    /** Finds the one registered ticket that lists the player, if there is one. */
    method FindByPlayerKey(p: PlayerKey) returns (found: bool, id: TicketId)
      requires Valid()
      ensures found ==> id in tickets && p in tickets[id].players
      ensures forall x :: x in tickets && p in tickets[x].players ==> found && x == id
    {
      forall x | x in tickets && p in tickets[x].players ensures p in byPlayer && byPlayer[p] == x {
        assert p in Members()[x];
      }
      if p !in byPlayer {
        return false, 0;
      }
      id := byPlayer[p];
      assert id in Members();
      found := id in tickets;
    }
  }
}
