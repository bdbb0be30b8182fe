/** A match session: the tickets of one match, the status they share, and what its players answered. */
module MatchSessions {
  import opened Tickets
  import opened Ordered
  import opened SessionProtocol

  ghost predicate Distinct(tickets: seq<Ticket>) {
    forall i, j :: 0 <= i < j < |tickets| ==> tickets[i] != tickets[j]
  }

  ghost function TicketSet(tickets: seq<Ticket>): set<Ticket> {
    set t | t in tickets
  }

  /** Everybody listed by one of the tickets. */
  ghost function AllPlayers(tickets: seq<Ticket>): set<PlayerKey> {
    set t, p | t in tickets && p in t.players :: p
  }

  class MatchSession {
    const id: TicketId
    const tickets: seq<Ticket>
    var status: Status
    var answers: map<PlayerKey, Answer>

    constructor (id: TicketId, tickets: seq<Ticket>)
      ensures this.id == id && this.tickets == tickets && status == Unset
      ensures answers == map p | p in AllPlayers(tickets) :: Answer(false, false)
    {
      this.id := id;
      this.tickets := tickets;
      status := Unset;
      new;
      answers := map[];
      for i := 0 to |tickets|
        invariant status == Unset
        invariant answers == map p | p in AllPlayers(tickets[..i]) :: Answer(false, false)
      {
        assert AllPlayers(tickets[..i + 1]) == AllPlayers(tickets[..i]) + tickets[i].players by {
          OneMorePlayers(tickets, i);
        }
        answers := answers + map p | p in tickets[i].players :: Answer(false, false);
      }
      assert tickets[..|tickets|] == tickets;
    }

    method ForceSetStatus(s: Status)
      modifies `status
      ensures status == s
    {
      status := s;
    }

    /** Moves the session and all its tickets together, or moves nothing. */
    method ChangeStatus(next: Status) returns (ok: bool)
      requires Distinct(tickets)
      modifies `status, TicketSet(tickets)`status
      ensures ok <==> CanChangeStatus(old(status), next) && forall t :: t in tickets ==> CanChangeStatus(old(t.status), next)
      ensures status == if ok then next else old(status)
      ensures forall t :: t in tickets ==> t.status == if ok then next else old(t.status)
    {
      if !CanChangeStatus(status, next) {
        return false;
      }
      for i := 0 to |tickets|
        invariant forall j :: 0 <= j < i ==> CanChangeStatus(tickets[j].status, next)
      {
        if !CanChangeStatus(tickets[i].status, next) {
          return false;
        }
      }
      ok := ChangeTickets(next);
      // Nobody else changes a ticket in between here, so no change is refused and none is rolled back.
      assert ok;
      status := next;
    }

    /** Changes the tickets one by one, each only from the status it had before; a refusal rolls back. */
    method ChangeTickets(next: Status) returns (ok: bool)
      requires Distinct(tickets)
      requires forall t :: t in tickets ==> CanChangeStatus(t.status, next)
      modifies TicketSet(tickets)`status
      ensures ok && forall t :: t in tickets ==> t.status == next
    {
      for i := 0 to |tickets|
        invariant forall j :: 0 <= j < i ==> tickets[j].status == next
        invariant forall j :: i <= j < |tickets| ==> tickets[j].status == old(tickets[j].status)
      {
        assert tickets[i] in tickets;
        var changed := tickets[i].ChangeStatusIfCurrent(tickets[i].status, next);
        assert changed;
      }
      return true;
    }

    predicate IsAllAcceptPlayerSession()
      reads `answers
    {
      forall p :: p in answers ==> answers[p].accepted
    }

    /** Only a player of the session is heard, and only once. */
    method AcceptPlayerSession(p: PlayerKey, accept: bool) returns (ok: bool)
      modifies `answers
      ensures ok <==> p in old(answers) && !old(answers)[p].responded
      ensures answers == if ok then old(answers)[p := Answer(true, accept)] else old(answers)
    {
      if p !in answers {
        return false;
      }
      if answers[p].responded {
        return false;
      }
      answers := answers[p := Answer(true, accept)];
      return true;
    }
  }

  lemma OneMorePlayers(tickets: seq<Ticket>, i: nat)
    requires i < |tickets|
    ensures AllPlayers(tickets[..i + 1]) == AllPlayers(tickets[..i]) + tickets[i].players
  {
    var more := tickets[..i + 1];
    assert more == tickets[..i] + [tickets[i]];
    assert tickets[i] in more;
    forall p ensures p in AllPlayers(more) <==> p in AllPlayers(tickets[..i]) || p in tickets[i].players {
      if p in AllPlayers(more) {
        var t :| t in more && p in t.players;
        assert t in tickets[..i] || t == tickets[i];
      }
    }
  }
}
