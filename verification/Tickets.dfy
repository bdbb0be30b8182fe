/** Match tickets: the status table every part of the engine obeys, and the runtime ticket object
    that the managers, the workers and the sessions share. */
module Tickets {
  import opened Ordered

  type TicketId = int
  type PlayerKey = int

  datatype Status =
    | Unset
    | Queued
    | Searching
    | RequiresAcceptance
    | Placing
    | Completed
    | Failed
    | Cancelled
    | TimedOut

  predicate Terminal(s: Status) {
    s.Completed? || s.Failed? || s.Cancelled? || s.TimedOut?
  }

  /** The transition table: which status may follow which. */
  predicate CanChangeStatus(curr: Status, next: Status) {
    match curr
    case Unset => next.Queued? || next.Cancelled? || next.Failed?
    case Queued => next.Searching? || next.Cancelled? || next.Failed?
    case Searching => next.RequiresAcceptance? || next.Placing? || next.Failed?
    case RequiresAcceptance => next.Placing? || next.TimedOut? || next.Failed?
    case Placing => next.Completed? || next.TimedOut? || next.Failed?
    case _ => false
  }

  /** The table read by its targets: what a ticket must be to become something. */
  lemma TableByTarget(curr: Status)
    ensures !CanChangeStatus(curr, Unset)
    ensures CanChangeStatus(curr, Queued) <==> curr == Unset
    ensures CanChangeStatus(curr, Searching) <==> curr == Queued
    ensures CanChangeStatus(curr, RequiresAcceptance) <==> curr == Searching
    ensures CanChangeStatus(curr, Placing) <==> curr == Searching || curr == RequiresAcceptance
    ensures CanChangeStatus(curr, Completed) <==> curr == Placing
    ensures CanChangeStatus(curr, TimedOut) <==> curr == RequiresAcceptance || curr == Placing
    ensures CanChangeStatus(curr, Cancelled) <==> curr == Unset || curr == Queued
    ensures CanChangeStatus(curr, Failed) <==> !Terminal(curr)
  {
  }

  /** A request belongs to the party manager if it has a party key or more than one player. */
  predicate IsPartyRequest(players: set<PlayerKey>, partyKey: int) {
    partyKey > 0 || |players| > 1
  }

  /** So any two players make it a party request, whatever its key. */
  lemma TwoMakeAParty(players: set<PlayerKey>, partyKey: int)
    ensures IsPartyRequest(players, partyKey)
       <==> partyKey > 0 || exists a, b :: a in players && b in players && a != b
  {
    if |players| > 1 {
      var a := Pick(players);
      assert |players - {a}| == |players| - 1;
      var b := Pick(players - {a});
      assert a in players && b in players && a != b;
    }
    forall a, b | a in players && b in players && a != b ensures |players| > 1 {
      assert b in players - {a};
      assert |players - {a}| == |players| - 1;
    }
  }

  /** How far along its life a status is. */
  function Stage(s: Status): nat {
    match s
    case Unset => 0
    case Queued => 1
    case Searching => 2
    case RequiresAcceptance => 3
    case Placing => 4
    case _ => 5
  }

  /** Past the queue: committed to a match, never to be cancelled. */
  predicate PastQueue(s: Status) {
    Stage(s) >= 2 && !s.Cancelled?
  }

  /** A history of one ticket in which every change went through the table. */
  ghost predicate LegalHistory(h: seq<Status>) {
    forall i :: 0 < i < |h| ==> CanChangeStatus(h[i - 1], h[i])
  }

  /** Whatever is asked of a ticket, the table lets it change at most five times, never back to a
      status it left, and only its last status can be terminal. */
  lemma {:induction false} LegalHistoryIsShort(h: seq<Status>)
    requires LegalHistory(h)
    ensures |h| <= 6
    ensures forall i, j :: 0 <= i < j < |h| ==> h[i] != h[j] && !Terminal(h[i])
  {
    StagesGrow(h);
    if |h| > 1 {
      assert Stage(h[|h| - 1]) >= Stage(h[0]) + |h| - 1;
    }
  }

  lemma {:induction false} StagesGrow(h: seq<Status>)
    requires LegalHistory(h)
    ensures forall i, j :: 0 <= i < j < |h| ==> Stage(h[j]) >= Stage(h[i]) + (j - i)
  {
    if |h| > 1 {
      var p := h[..|h| - 1];
      StagesGrow(p);
      forall i, j | 0 <= i < j < |h|
        ensures Stage(h[j]) >= Stage(h[i]) + (j - i)
      {
        if j == |h| - 1 {
          assert CanChangeStatus(h[j - 1], h[j]);
          if i < j - 1 {
            assert p[i] == h[i] && p[j - 1] == h[j - 1];
          }
        } else {
          assert p[i] == h[i] && p[j] == h[j];
        }
      }
    }
  }

  class Ticket {
    const id: TicketId
    const partyKey: int
    const players: set<PlayerKey>
    var status: Status

    constructor (id: TicketId, partyKey: int, players: set<PlayerKey>)
      ensures this.id == id && this.partyKey == partyKey && this.players == players
      ensures status == Unset
    {
      this.id := id;
      this.partyKey := partyKey;
      this.players := players;
      status := Unset;
    }

    /** Which of the two managers this ticket belongs to. */
    predicate IsParty() {
      IsPartyRequest(players, partyKey)
    }

    method ChangeStatus(next: Status) returns (ok: bool)
      modifies `status
      ensures ok <==> CanChangeStatus(old(status), next)
      ensures status == if ok then next else old(status)
    {
      if !CanChangeStatus(status, next) {
        return false;
      }
      status := next;
      return true;
    }

    method ChangeStatusIfCurrent(expected: Status, next: Status) returns (ok: bool)
      modifies `status
      ensures ok <==> old(status) == expected && CanChangeStatus(old(status), next)
      ensures status == if ok then next else old(status)
    {
      if status != expected {
        return false;
      }
      if !CanChangeStatus(status, next) {
        return false;
      }
      status := next;
      return true;
    }
  }
}
