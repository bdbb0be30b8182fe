/** The solo worker and its group: the critical sections as methods on the worker, request and ticket
    objects, each proved to be the corresponding step of SoloProtocol. */
module SoloWorkers {
  import opened Tickets
  import opened Ordered
  import opened PartyQueue
  import opened SoloLane
  import opened SoloProtocol

  ghost predicate OwnKeyed(entries: map<TicketId, Request>) {
    forall id :: id in entries ==> entries[id].id == id && entries[id].ticket.id == id
  }

  /** Every entry of one list is an entry of another. */
  ghost predicate Sublist(part: map<TicketId, Request>, whole: map<TicketId, Request>) {
    forall id :: id in part ==> id in whole && part[id] == whole[id]
  }

  class SoloWorker {
    const matchPlayerCount: nat
    var waiting: map<TicketId, Request>
    var progressing: map<TicketId, Request>

    constructor (matchPlayerCount: nat)
      ensures this.matchPlayerCount == matchPlayerCount
      ensures Valid() && LaneNow() == Lane({}, {})
    {
      this.matchPlayerCount := matchPlayerCount;
      waiting, progressing := map[], map[];
    }

    ghost predicate Valid()
      reads this
    {
      OwnKeyed(waiting) && OwnKeyed(progressing) && waiting.Keys !! progressing.Keys
    }

    ghost function LaneNow(): Lane
      reads this
    {
      Lane(waiting.Keys, progressing.Keys)
    }

    /** All of the worker's entries. */
    ghost function Entries(): map<TicketId, Request>
      reads this
    {
      waiting + progressing
    }

    ghost function TicketsHeld(): set<Ticket>
      reads this
    {
      set id | id in Entries() :: Entries()[id].ticket
    }

    ghost function StatusesHeld(): map<TicketId, Status>
      reads this, TicketsHeld()
    {
      map id | id in Entries() :: Entries()[id].ticket.status
    }

    /** Under the worker's lock the ticket must still be QUEUED, and must not wait already. That it is not in
        progress is not checked: then it would be in both lists. */
    method EnqueueJobRequest(r: Request) returns (ok: bool)
      requires Valid() && r.id == r.ticket.id
      modifies this`waiting
      ensures Valid() <==> !(ok && r.id in progressing)
      ensures ok <==> r.ticket.status.Queued? && r.id !in old(waiting)
      ensures waiting == if ok then old(waiting)[r.id := r] else old(waiting)
    {
      if !r.ticket.status.Queued? {
        return false;
      }
      if r.id in waiting {
        return false;
      }
      waiting := waiting[r.id := r];
      return true;
    }

    method Erase(ticket: Ticket) returns (ok: bool)
      requires Valid()
      modifies this
      ensures Valid() && ok
      ensures waiting == old(waiting) - {ticket.id} && progressing == old(progressing) - {ticket.id}
    {
      waiting := waiting - {ticket.id};
      progressing := progressing - {ticket.id};
      return true;
    }

    /** Cancelling and leaving the lists are one critical section: a ticket that may not be cancelled any
        more stays where it is. */
    method Cancel(ticket: Ticket) returns (ok: bool)
      requires Valid()
      modifies this, ticket`status
      ensures Valid()
      ensures ok <==> CanChangeStatus(old(ticket.status), Cancelled)
      ensures ticket.status == if ok then Cancelled else old(ticket.status)
      ensures waiting == if ok then old(waiting) - {ticket.id} else old(waiting)
      ensures progressing == if ok then old(progressing) - {ticket.id} else old(progressing)
    {
      ok := ticket.ChangeStatus(Cancelled);
      if !ok {
        return;
      }
      waiting := waiting - {ticket.id};
      progressing := progressing - {ticket.id};
    }

    predicate IsWorkerJobAvailable()
      reads this
    {
      |waiting| > 0
    }

    /** Moves the oldest waiting request over. */
    method MoveOldest(ghost all: map<TicketId, Request>)
      requires Valid() && waiting != map[] && Sublist(waiting, all) && Sublist(progressing, all)
      modifies this
      ensures Valid() && Sublist(waiting, all) && Sublist(progressing, all)
      ensures var id := Least(old(waiting.Keys));
              LaneNow() == Lane(old(waiting.Keys) - {id}, old(progressing.Keys) + {id})
      ensures |waiting| < |old(waiting)|
    {
      hide OwnKeyed, Sublist;
      var id := Least(waiting.Keys);
      MoveEntry(waiting, progressing, id, all);
      if id !in progressing {
        progressing := progressing[id := waiting[id]];
      }
      waiting := waiting - {id};
    }

    /** Moves the oldest waiting requests over until the progressing list is full. */
    method FillProgressing()
      requires Valid()
      modifies this
      ensures Valid() && LaneNow() == Pull(old(LaneNow()), matchPlayerCount)
      ensures Sublist(waiting, old(Entries())) && Sublist(progressing, old(Entries()))
    {
      hide Pull, OwnKeyed, Sublist;
      EntriesThemselves(waiting, progressing);
      while waiting != map[]
        invariant Valid() && Sublist(waiting, old(Entries())) && Sublist(progressing, old(Entries()))
        invariant Pull(LaneNow(), matchPlayerCount) == Pull(old(LaneNow()), matchPlayerCount)
        decreases |waiting|
      {
        if |progressing| >= matchPlayerCount {
          break;
        }
        PullOne(LaneNow(), matchPlayerCount);
        MoveOldest(old(Entries()));
      }
      PullDone(LaneNow(), matchPlayerCount);
    }

    /** Moves every ticket in progress to SEARCHING and reports whether all of them could. */
    method SearchAll() returns (all: bool)
      requires Valid()
      modifies set id | id in progressing :: progressing[id].ticket
      ensures all <==> forall id :: id in progressing ==> CanChangeStatus(old(progressing[id].ticket.status), Searching)
      ensures forall id :: id in progressing ==>
        progressing[id].ticket.status == SearchedStatus(old(progressing[id].ticket.status))
    {
      all := true;
      var rest := progressing.Keys;
      while rest != {}
        invariant rest <= progressing.Keys
        invariant forall id :: id in rest ==> progressing[id].ticket.status == old(progressing[id].ticket.status)
        invariant forall id :: id in progressing && id !in rest ==>
          progressing[id].ticket.status == SearchedStatus(old(progressing[id].ticket.status))
        invariant all <==> forall id :: id in progressing && id !in rest ==>
          CanChangeStatus(old(progressing[id].ticket.status), Searching)
      {
        var id := Least(rest);
        assert progressing[id].ticket.status == old(progressing[id].ticket.status);
        OwnTicket(id);
        var changed := progressing[id].ticket.ChangeStatus(Searching);
        all := all && changed;
        rest := rest - {id};
      }
    }

    lemma OwnTicket(id: TicketId)
      requires Valid() && id in progressing
      ensures forall x :: x in progressing && x != id ==> progressing[x].ticket != progressing[id].ticket
    {
    }

    /** Hands over the full progressing list, taking its tickets to SEARCHING. */
    method CompleteMatch(ghost entries: map<TicketId, Request>, ghost held: map<TicketId, Status>)
      returns (all: bool, matched: map<TicketId, Request>)
      requires Valid() && OwnKeyed(entries) && Sublist(progressing, entries) && held.Keys == entries.Keys
      requires forall id :: id in entries ==> entries[id].ticket.status == held[id]
      modifies this`progressing, set id | id in progressing :: progressing[id].ticket
      ensures Valid() && progressing == map[] && matched == old(progressing)
      ensures all <==> AllCanSearch(held, matched.Keys)
      ensures forall id :: id in entries ==> entries[id].ticket.status == Searched(held, matched.Keys)[id]
    {
      all := SearchAll();
      matched := progressing;
      progressing := map[];
    }

    lemma HeldMeans()
      ensures StatusesHeld().Keys == Entries().Keys
      ensures forall id :: id in Entries() ==> StatusesHeld()[id] == Entries()[id].ticket.status
      ensures forall id :: id in Entries() ==> Entries()[id].ticket in TicketsHeld()
    {
    }

    /** One job: the lane moves as AfterJob says; a completed match takes its tickets to SEARCHING and is
        handed over, and nothing else changes. */
    method DoWorkerAsyncJob() returns (complete: bool, all: bool, matched: map<TicketId, Request>)
      requires Valid()
      modifies this, TicketsHeld()
      ensures Valid()
      ensures complete <==> Completes(old(LaneNow()), matchPlayerCount)
      ensures LaneNow() == AfterJob(old(LaneNow()), matchPlayerCount)
      ensures matched.Keys == JobMatch(old(LaneNow()), matchPlayerCount)
      ensures Sublist(waiting, old(Entries())) && Sublist(progressing, old(Entries()))
      ensures Sublist(matched, old(Entries()))
      ensures all <==> AllCanSearch(old(StatusesHeld()), matched.Keys)
      ensures forall id :: id in old(Entries()) ==>
        old(Entries())[id].ticket.status == Searched(old(StatusesHeld()), matched.Keys)[id]
      ensures forall id :: id in old(Entries()) ==>
        old(Entries())[id].ticket.status
        == if id in matched && old(StatusesHeld())[id].Queued? then Searching else old(StatusesHeld())[id]
    {
      hide Pull, OwnKeyed, Searched, AllCanSearch, StatusesHeld;
      ghost var entries, held := Entries(), StatusesHeld();
      HeldMeans();
      NothingSearched(held);
      EntriesThemselves(waiting, progressing);
      FillProgressing();
      complete := |progressing| >= matchPlayerCount;
      all, matched := true, map[];
      if complete {
        all, matched := CompleteMatch(entries, held);
      }
      SearchedMeans(held, matched.Keys);
    }
  }

  lemma EntriesThemselves(waiting: map<TicketId, Request>, progressing: map<TicketId, Request>)
    requires waiting.Keys !! progressing.Keys
    ensures Sublist(waiting, waiting + progressing) && Sublist(progressing, waiting + progressing)
    ensures OwnKeyed(waiting) && OwnKeyed(progressing) ==> OwnKeyed(waiting + progressing)
  {
  }

  lemma MoveEntry(waiting: map<TicketId, Request>, progressing: map<TicketId, Request>, id: TicketId,
                  all: map<TicketId, Request>)
    requires OwnKeyed(waiting) && OwnKeyed(progressing) && id in waiting
    requires Sublist(waiting, all) && Sublist(progressing, all)
    ensures var p := if id in progressing then progressing else progressing[id := waiting[id]];
            && OwnKeyed(waiting - {id}) && OwnKeyed(p)
            && p.Keys == progressing.Keys + {id} && (waiting - {id}).Keys == waiting.Keys - {id}
            && Sublist(waiting - {id}, all) && Sublist(p, all)
  {
  }

  lemma PullDone(lane: Lane, n: nat)
    requires |lane.progressing| >= n || lane.waiting == {}
    ensures Pull(lane, n) == lane
  {
  }

  function SearchedStatus(s: Status): Status {
    if CanChangeStatus(s, Searching) then Searching else s
  }

  lemma PullOne(lane: Lane, n: nat)
    requires |lane.progressing| < n && lane.waiting != {}
    ensures var id := Least(lane.waiting);
            Pull(lane, n) == Pull(Lane(lane.waiting - {id}, lane.progressing + {id}), n)
  {
  }
}
