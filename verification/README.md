# A verified model of the matchmaking engine

This Dafny project models a game matchmaking server and proves what it guarantees: how parties and single
players wait in queues, how worker threads turn waiting tickets into matches, how a match becomes a session
that its players accept or reject, and what is cleaned up afterwards.

`dafny verify dfyconfig.toml` checks everything. No file depends on anything outside this directory.

## How it is built

Each part of the engine appears twice. A *protocol* module describes it on values: a datatype for the state,
one function per critical section or handler, and theorems over all interleavings and all runs. A *class*
module holds the objects with mutable fields, whose methods follow the program and are proved to be exactly
those functions (`State() == AfterX(old(State()), ...)`). So what is proved about the protocol holds of the
objects. What each of those functions brings about is stated once more without it, component by component, in the
lemmas named `...Means` and `...Brings`.

| Part | On values | On objects |
|---|---|---|
| Combination table | `Combinations`, `CombinationSearch` | (a method over local stacks) |
| Party queue | `Selection`, `PartyProtocol`, `PartyWindows` | `PartyQueue`, `PartyGroup` |
| Solo queue | `SoloLane`, `SoloProtocol` | `SoloWorkers`, `SoloGroup` |
| Tickets, registries | `Tickets`, `Registries` | `Tickets`, `Registries` |
| Sessions | `SessionProtocol`, `SessionSafety`, `SessionLife`, `SessionRuns`, `SessionTheorems`, `SessionJobs`, `SessionEffects`, `Misrouting`, `SessionOutcome` | `MatchSessions`, `SessionManagers` |
| Timed jobs, penalties | `TimedQueue`, `AsyncJobs`, `Penalties` | `AsyncJobs`, `Penalties` |
| Zones | `Zones` | `ZoneManagers` |

A step of the party and solo protocols is one critical section. What a worker thread selected is carried from
selection to commit as that thread's own, possibly stale, state; likewise a solo request that has become QUEUED
but has not yet reached its worker. A step of the session, penalty and zone machines is one whole handler.
Time is an input. For penalties and zones it does not go back.

## What is assumed

- Ticket ids are fresh: non-negative, unique and below the largest 64-bit value
  (MM/matching/core/MatchmakingTicket.cpp:16-28).
- A group has at least one worker. With a match size or a party limit that is not positive the combination table
  is proved empty, so that no request is ever let in.

## Where the code falls short of its intent

- A party ticket that is cancelled between registration and enqueue still enters its base worker, because the
  refused change to QUEUED is ignored, and it is never erased. It is never matched. `LateEnqueueLeavesCancelledTicket`
  gives the run, `StrandedTicketStays` shows that it stays, and `OnlyLateEnqueueStrands` that this is the only way.
- The solo manager means to turn a stop request during acceptance into a rejection. It does so if and only if the
  player has not answered yet and a ticket of the session that lists him is misrouted: given to the solo manager,
  which asks only that there be one player, but with a party key, so that it is handed back to the party manager.
  In every other case ownership has left the registry by then, or the answer no longer counts, and the stop leaves
  all sessions as they are (`StopRejectsExactlyIfMisrouted`, with a run in `MisroutedStopRejects`).
- A misrouted ticket, with either manager, is never taken out of its registry once it has been matched, and none of
  its players can register there again (`OwnershipPassesIfRouted`, `StuckForEver`). All other invariants of the
  sessions hold with misrouted tickets too.
- A zone insert that fails never leaves the maps as they were. A taken key costs the resident zone; a taken
  player costs that player's index entry (`FailedInsertNeverRestores`). The index stays sound nevertheless.
- With the automatic acceptances alone, a session of 60 or more players always times out, since the sixtieth
  acceptance falls due together with, and behind, the acceptance timeout (`UntouchedSessionOutcome`). An automatic
  acceptance names its player only, so one left over from a session that has failed answers for that player in his
  next one; `CreatedSessionOutcome` says exactly when that matters.

## Model

| member | source | states |
|---|---|---|
| Tickets.LegalHistoryIsShort | MM/matching/MatchmakingTypes.h:199-213 | whatever is asked of a ticket, its status changes at most five times, never back, and only its last status can be terminal |
| Tickets.TableByTarget | MM/matching/MatchmakingTypes.h:199-213 | what a ticket must be to become each status; terminal ones become nothing |
| Tickets.TwoMakeAParty | MM/matching/MatchSessionManager.cpp:16-22 | a request is handed back to the party manager exactly if it has a party key or two different players |
| Tickets.Ticket.ChangeStatus | MM/matching/core/MatchmakingTicket.h:56-66 | the status changes exactly if the table allows it |
| Tickets.Ticket.ChangeStatusIfCurrent | MM/matching/core/MatchmakingTicket.h:68-81 | the status changes exactly if it is the expected one and the table allows it |
| Combinations.PartitionsExact | MM/matching/core/MatchmakingRule.cpp:9-72 | the recursive enumerator lists exactly the non-decreasing lists of parts from the least to the limit that add up to the total |
| Combinations.PartitionsIncrease | MM/matching/core/MatchmakingRule.cpp:59-68 | it lists them in strictly increasing lexicographic order |
| Combinations.GroupedInjective | MM/matching/core/MatchmakingRule.cpp:36-41 | counting the parts of two such lists gives the same size-to-count map only if the lists are equal |
| Combinations.FiledPartitionsAreTable | MM/matching/core/MatchmakingRule.cpp:40-41 | filing every partition under each of its sizes gives a table whose keys are 1..min(N, P) and whose list under k is each combination that uses k, once |
| CombinationSearch.SearchShape | MM/matching/core/MatchmakingRule.cpp:23-69 | at every point of the search the parts and the top frame's remainder add up to N, the parts are non-decreasing and one fewer than the frames, and there are at most N + 1 frames |
| CombinationSearch.SearchPushes | MM/matching/core/MatchmakingRule.cpp:59-68 | a push moves no work: output so far followed by the work on the stack is still the enumeration of the root |
| CombinationSearch.SearchPops | MM/matching/core/MatchmakingRule.cpp:34-57 | so does a pop, with what the frame found added to the output |
| CombinationSearch.MakeCombination | MM/matching/core/MatchmakingRule.cpp:9-72 | the explicit-stack loop ends with exactly the recursive enumeration filed by size, in its order; without a positive size and limit the table is empty |
| CombinationSearch.CombinationsOfSize | MM/matching/core/MatchmakingRule.cpp:74-81 | the look-up of any size, known or not, gives exactly the combinations that use it, each once |
| Selection.FillingIsAvailable | MM/matching/workers/PartyMatchmakingWorker.cpp:76-118 | if some set of QUEUED tickets fills a match, its grouping by size is a combination for which every bucket has enough QUEUED tickets |
| Selection.CandidateFills | MM/matching/workers/PartyMatchmakingWorker.cpp:76-118 | the candidate built for a combination is such a set |
| Selection.CandidateIsOldest | MM/matching/workers/PartyMatchmakingWorker.cpp:93-112 | no set with the same sizes has an older ticket than the candidate |
| Selection.SelectionConcludes | MM/matching/workers/PartyMatchmakingWorker.cpp:120-162 | once every filed combination of every counted size is settled, the best candidate is the best over all sets of QUEUED tickets |
| PartyQueue.InsertKeepsConsistent | MM/matching/workers/PartyMatchmakingWorker.cpp:18-31 | inserting keeps the three structures in agreement, and the bucket never refuses an id the queue accepted |
| PartyQueue.RemoveKeepsConsistent | MM/matching/workers/PartyMatchmakingWorker.cpp:43-61 | so does erasing |
| PartyQueue.PartyWorker.EnqueueJobRequest | MM/matching/workers/PartyMatchmakingWorker.cpp:10-34 | a request is added exactly if its id does not wait yet, and the structures stay consistent |
| PartyQueue.PartyWorker.Erase | MM/matching/workers/PartyMatchmakingWorker.cpp:36-64 | the entry under the ticket's id is gone, and the three structures still agree if and only if there was none or it had the ticket's size |
| PartyQueue.PartyWorker.BuildCandidate | MM/matching/workers/PartyMatchmakingWorker.cpp:76-118 | there is a candidate exactly if every size has enough QUEUED tickets; it takes the oldest of each size; the count check never rejects a feasible combination |
| PartyQueue.PartyWorker.MakeMatchmaking | MM/matching/workers/PartyMatchmakingWorker.cpp:120-162 | selection agrees with brute force: it finds nothing exactly if no set of QUEUED tickets has N players, and otherwise distinct QUEUED tickets with exactly N players whose oldest ticket is the oldest over all such sets |
| PartyProtocol.QueuedSitsInWindow | MM/workers/WorkerJobRequest.h:24-35 | a QUEUED ticket waits at exactly the workers from clamp(base - level) to clamp(base + level) |
| PartyProtocol.WideningAddsEnds | MM/matching/workers/PartyMatchmakingWorker.cpp:332-348 | one level more adds exactly the new ends of the window |
| PartyProtocol.CommittedSane | MM/matching/workers/PartyMatchmakingWorker.cpp:289-296 | erasing the window on commit leaves the committed tickets at no worker and moves nobody else |
| PartyProtocol.CancelledSane | MM/matching/workers/PartyMatchmakingWorker.cpp:432-449 | a cancelled ticket waits nowhere |
| PartyProtocol.EnqueuedBookings | MM/matching/workers/PartyMatchmakingWorker.cpp:391-394 | an enqueue keeps the bookings in step: a QUEUED ticket is booked once, exactly while its window does not cover every worker |
| PartyProtocol.ExpandedBookings | MM/matching/workers/PartyMatchmakingWorker.cpp:312-359 | so does a round of expansion |
| PartyProtocol.EnqueueMeans | MM/matching/workers/PartyMatchmakingWorker.cpp:373-416 | an enqueued new ticket is QUEUED, waits at exactly the worker its id hashes to and is booked if there are several; nobody else is touched |
| PartyProtocol.CancelMeans | MM/matching/workers/PartyMatchmakingWorker.cpp:432-449 | a cancelled new or QUEUED ticket is CANCELLED and waits nowhere; for any other nothing changes |
| PartyProtocol.CommitMeans | MM/matching/workers/PartyMatchmakingWorker.cpp:258-299 | exactly if all tickets of the list are QUEUED they are SEARCHING and wait nowhere, and nothing else changes; otherwise nothing does |
| PartyProtocol.ExpandMeans | MM/matching/workers/PartyMatchmakingWorker.cpp:301-362 | expansion changes no status, nothing about tickets that are not QUEUED, and takes nobody out |
| PartyProtocol.SelectThenCommit | MM/matching/workers/PartyMatchmakingWorker.cpp:200-217 | what is selected commits if nobody interferes, and makes just that match |
| PartyProtocol.SomeMatchHappens | MM/matching/workers/PartyMatchmakingWorker.cpp:164-416 | a run in which a ticket is queued, selected and matched |
| PartyWindows.QueuedWaitsWithin | MM/matching/workers/PartyMatchmakingWorker.cpp:301-362 | over every interleaving, a ticket that is still QUEUED after c rounds of expansion, each later than the one before and the first later than its enqueue, waits at exactly the workers at most c away from the one its id hashes to |
| PartyWindows.ExpansionReachesAll | MM/matching/workers/PartyMatchmakingWorker.cpp:301-362 | so after as many such rounds as there are further workers, with anything interleaved, it waits at every worker |
| PartyProtocol.RunStaysSane | MM/matching/workers/PartyMatchmakingWorker.cpp:200-449 | every state of every interleaving satisfies the window, booking and match invariants, for any number of workers |
| PartyProtocol.CommittedMatchesAreSafe | MM/matching/workers/PartyMatchmakingWorker.cpp:164-299 | over every interleaving committed matches share no ticket, each has exactly N players, and a ticket whose cancel succeeded is in no later match |
| PartyProtocol.StaleCommitChangesNothing | MM/matching/workers/PartyMatchmakingWorker.cpp:267-274 | a candidate list with a ticket that is no longer QUEUED changes no status and no queue |
| PartyProtocol.LateEnqueueLeavesCancelledTicket | MM/matching/workers/PartyMatchmakingWorker.cpp:403-411 | a run in which a ticket cancelled before its enqueue ends up waiting |
| PartyProtocol.StrandedTicketStays | MM/matching/workers/PartyMatchmakingWorker.cpp:258-362 | no later step takes such a ticket out |
| PartyProtocol.OnlyLateEnqueueStrands | MM/matching/workers/PartyMatchmakingWorker.cpp:373-416 | a step leaves a terminal ticket waiting that was not waiting terminal before if and only if it enqueues a ticket already CANCELLED |
| PartyGroup.PartyWorkerGroup.constructor | MM/matching/workers/PartyMatchmakingWorker.cpp:170-181 | a new group satisfies all invariants and holds the whole combination table for its match size and party limit, which is empty only if one of them is not positive |
| PartyGroup.PartyWorkerGroup.SizesLetIn | MM/matching/workers/PartyMatchmakingWorker.cpp:383 | the sizes a group lets in are exactly 1..min(N, P) |
| PartyGroup.PartyWorkerGroup.EnqueueJobRequest | MM/matching/workers/PartyMatchmakingWorker.cpp:373-416 | is the protocol's enqueue for sizes 1..min(N, P), which erases a request that waits at its base worker already; other sizes are turned away and change nothing |
| PartyGroup.PartyWorkerGroup.TryCommit | MM/matching/workers/PartyMatchmakingWorker.cpp:258-299 | is the protocol's commit: all tickets or none, succeeding exactly if every ticket is still QUEUED |
| PartyGroup.PartyWorkerGroup.CancelMatchTicket | MM/matching/workers/PartyMatchmakingWorker.cpp:432-449 | is the protocol's cancel |
| PartyGroup.PartyWorkerGroup.ExpandWindows | MM/matching/workers/PartyMatchmakingWorker.cpp:301-362 | is the protocol's round of expansion |
| PartyGroup.PartyWorkerGroup.Select | MM/matching/workers/PartyMatchmakingWorker.cpp:164-211 | is the protocol's selection: what it hands on is selectable and a best match, and it hands on nothing exactly if no set of QUEUED tickets there fills a match |
| PartyGroup.PartyWorkerGroup.DoWorkerAsyncJob | MM/matching/workers/PartyMatchmakingWorker.cpp:200-217 | undisturbed, a turn commits a best match exactly if one exists |
| PartyGroup.CommitConserves | MM/matching/workers/PartyMatchmakingWorker.cpp:258-299 | a commit takes exactly its tickets out of the worker, whose queue gets smaller |
| PartyGroup.PartyWorkerGroup.RunUntilIdle | MM/matching/workers/PartyMatchmakingWorker.cpp:120-299 | repeating select and commit terminates, waiting before is waiting after plus matched, and it stops only when no set of remaining QUEUED tickets has N players |
| SoloLane.PullMeans | MM/matching/workers/SoloMatchmakingWorker.cpp:87-101 | filling the progressing list loses and doubles no ticket, takes the oldest, and stops exactly when the list is full or nobody waits |
| SoloLane.JobMeans | MM/matching/workers/SoloMatchmakingWorker.cpp:87-136 | a job with N tickets or more at hand matches exactly N, with fewer it matches none and leaves all in progress |
| SoloLane.DrainedCounts | MM/matching/workers/SoloMatchmakingWorker.cpp:75-164 | jobs until nobody waits make T div N matches and leave T mod N tickets |
| SoloLane.DrainedConserves | MM/matching/workers/SoloMatchmakingWorker.cpp:75-164 | the matches have N tickets each, are disjoint, and with the rest make up all tickets there were |
| SoloProtocol.JobNeverFails | MM/matching/workers/SoloMatchmakingWorker.cpp:121-125 | every ticket of a complete match can change to SEARCHING, so the failure branch is unreachable |
| SoloProtocol.MatchedAreSearching | MM/matching/workers/SoloMatchmakingWorker.cpp:103-136 | over every run, right after a job the tickets it matched, which were QUEUED, are SEARCHING, and no other status has changed |
| SoloProtocol.JobMeansForAll | MM/matching/workers/SoloMatchmakingWorker.cpp:75-136 | with N tickets or more at hand a job matches N, now SEARCHING and in no list of the worker; with fewer all are in progress; no other worker changes |
| SoloProtocol.MarkMeans | MM/matching/workers/SoloMatchmakingWorker.cpp:197-198 | exactly a new ticket becomes QUEUED and is on its way |
| SoloProtocol.InsertMeans | MM/matching/workers/SoloMatchmakingWorker.cpp:24-42 | a request that arrives still QUEUED waits at exactly the worker its id hashes to; one cancelled meanwhile is in no list |
| SoloProtocol.CancelMeans | MM/matching/workers/SoloMatchmakingWorker.cpp:57-73 | a cancelled new or QUEUED ticket is CANCELLED and in no list; for any other nothing changes |
| SoloProtocol.SomeMatchHappens | MM/matching/workers/SoloMatchmakingWorker.cpp:24-221 | a run in which a ticket is queued, inserted and matched |
| SoloProtocol.SoloMatchesAreSafe | MM/matching/workers/SoloMatchmakingWorker.cpp:24-157 | over every interleaving of the two halves of enqueuing, cancelling and matching: listed tickets are QUEUED and in one list, matches have N tickets and are disjoint, and a cancelled ticket is in no later list or match |
| SoloProtocol.HeldWereInserted | MM/matching/workers/SoloMatchmakingWorker.cpp:24-101 | in every run, whatever a worker holds was inserted there by an earlier step |
| SoloProtocol.MatchesTakeOldest | MM/matching/workers/SoloMatchmakingWorker.cpp:87-101 | if the ids inserted at a worker come in increasing order, every id it matches is smaller than every id it leaves behind |
| SoloWorkers.SoloWorker.EnqueueJobRequest | MM/matching/workers/SoloMatchmakingWorker.cpp:24-42 | a request enters exactly if its ticket is still QUEUED and does not wait yet; the lists stay disjoint exactly if one that enters is not in progress |
| SoloWorkers.SoloWorker.Cancel | MM/matching/workers/SoloMatchmakingWorker.cpp:57-73 | a ticket leaves both lists exactly if its status could change to CANCELLED |
| SoloWorkers.SoloWorker.DoWorkerAsyncJob | MM/matching/workers/SoloMatchmakingWorker.cpp:75-136 | the lists move as the job says, exactly the matched tickets that were QUEUED are SEARCHING, and nothing else changes |
| SoloGroup.SoloWorkerGroup.constructor | MM/matching/workers/SoloMatchmakingWorker.cpp:171-175 | a new group is in the initial state of the protocol and holds the whole combination table for its match size and party limit |
| SoloGroup.SoloWorkerGroup.SizesLetIn | MM/matching/workers/SoloMatchmakingWorker.cpp:194-195 | the sizes a group lets in are exactly 1..min(N, P) |
| SoloGroup.SoloWorkerGroup.MarkQueued | MM/matching/workers/SoloMatchmakingWorker.cpp:197-198 | is the protocol's first half of an enqueue |
| SoloGroup.SoloWorkerGroup.InsertMarked | MM/matching/workers/SoloMatchmakingWorker.cpp:209-217 | is its second half; a request that is turned away is in no list |
| SoloGroup.SoloWorkerGroup.EnqueueJobRequest | MM/matching/workers/SoloMatchmakingWorker.cpp:181-221 | both halves in a row, exactly if the size is one of 1..min(N, P) and the ticket is new, which is QUEUED then |
| SoloGroup.SoloWorkerGroup.CancelMatchTicket | MM/matching/workers/SoloMatchmakingWorker.cpp:232-238 | is the protocol's cancel |
| SoloGroup.SoloWorkerGroup.DoWorkerAsyncJob | MM/matching/workers/SoloMatchmakingWorker.cpp:75-157 | is the protocol's job: N tickets are matched exactly if N are at hand, the matched ones are SEARCHING, and no other status changes |
| SoloGroup.SoloWorkerGroup.RunUntilIdle | MM/matching/workers/SoloMatchmakingWorker.cpp:75-164 | a worker left alone terminates with T div N matches and T mod N tickets left |
| Registries.ClaimPlayers | MM/matching/MatchSessionManager.cpp:88-104 | claiming players succeeds exactly if none is named twice or claimed already, and a failure restores the index |
| Registries.ReleasePlayers | MM/matching/MatchSessionManager.cpp:121-136 | releasing drops exactly the players' own entries for this id |
| Registries.ClaimKeepsInverse | MM/matching/PartyMatchmakingManager.cpp:224-237 | a successful claim keeps the index the exact inverse of the entries' players |
| Registries.ReleaseKeepsInverse | MM/matching/PartyMatchmakingManager.cpp:258-270 | so does a release |
| Registries.InverseSeparates | MM/matching/MatchSessionManager.cpp:73-108 | then no player belongs to two entries |
| Registries.InverseIsUnique | MM/matching/PartyMatchmakingManager.cpp:209-273 | the entries determine the index |
| Registries.TicketRegistry.Insert | MM/matching/PartyMatchmakingManager.cpp:209-241 | a ticket is registered exactly if neither its id nor a player is, and a failure restores both maps |
| Registries.TicketRegistry.Erase | MM/matching/SoloMatchmakingManager.cpp:204-230 | a ticket leaves with exactly its players' entries |
| Registries.TicketRegistry.FindByPlayerKey | MM/matching/SoloMatchmakingManager.cpp:232-244 | finds the one registered ticket that lists the player |
| MatchSessions.MatchSession.constructor | MM/matching/core/MatchSession.cpp:6-24 | a new session expects an answer of exactly its tickets' players |
| MatchSessions.MatchSession.ChangeStatus | MM/matching/core/MatchSession.cpp:56-96 | session and tickets change together, exactly if all may, or nothing changes |
| MatchSessions.MatchSession.AcceptPlayerSession | MM/matching/core/MatchSession.cpp:110-126 | exactly the first answer of a player of the session counts |
| SessionProtocol.RosterApart | MM/matching/MatchSessionManager.cpp:88-104 | the players to be claimed name nobody twice if and only if no two tickets list the same player |
| SessionSafety.RegisteredSane | MM/matching/PartyMatchmakingManager.cpp:159-182 | registering with either manager, well routed or not, keeps every invariant of the engine but the jobs' |
| SessionSafety.QueuedSane | MM/matching/PartyMatchmakingManager.cpp:72-99 | so does the group's answer, with the failure arm |
| SessionSafety.FlightFailedSane | MM/matching/PartyMatchmakingManager.cpp:184-202 | so does failing a whole match |
| SessionLife.CreatedSane | MM/matching/MatchSessionManager.cpp:194-264 | so does a match becoming a session |
| SessionLife.UpdatedSane | MM/matching/MatchSessionManager.cpp:327-402 | so does an acceptance, whether or not it is the last |
| SessionLife.RejectedSane | MM/matching/MatchSessionManager.cpp:339-348 | so does a rejection |
| SessionLife.CompletedSessionSane | MM/matching/MatchSessionManager.cpp:441-450 | so does a completion |
| SessionRuns.FailIs | MM/matching/MatchSessionManager.cpp:305-325 | failing a live session always goes through: all its tickets FAILED, session and index entries gone |
| SessionRuns.TimeoutIs | MM/matching/MatchSessionManager.cpp:266-303 | a timeout ends exactly a session in the status it was booked for |
| SessionRuns.CompleteIs | MM/matching/MatchSessionManager.cpp:404-453 | exactly a placed session with a successful placement and a registered zone completes; any other live session fails |
| SessionRuns.AcceptIs | MM/matching/MatchSessionManager.cpp:327-402 | an acceptance that counts is recorded, and exactly the last one moves the session to PLACING and books its two jobs |
| SessionRuns.RejectIs | MM/matching/MatchSessionManager.cpp:339-348 | a rejection that counts fails the session and penalises its player |
| SessionRuns.CreateIs | MM/matching/MatchSessionManager.cpp:194-264 | a match becomes a session exactly if there is a world for it and no player is in a session; otherwise all its tickets fail and no session is touched |
| SessionRuns.StopIs | MM/matching/SoloMatchmakingManager.cpp:93-124 | a stop is a rejection if the player's registered ticket is asking and the solo manager is told, otherwise a cancel of that ticket, and keeps every invariant |
| SessionEffects.StopCancels | MM/matching/SoloMatchmakingManager.cpp:93-124 | a stop makes the player's registered ticket, if new or QUEUED, CANCELLED and registered nowhere, changes no other ticket, and punishes him for 15 seconds exactly if the solo manager is told to |
| SessionEffects.StopOtherwise | MM/matching/PartyMatchmakingManager.cpp:101-121 | without such a ticket it changes nothing, but for the solo manager's rejection while one is asking |
| SessionEffects.RegisterBrings | MM/matching/PartyMatchmakingManager.cpp:159-182 | a new ticket is registered with the manager it was given to, unless that has one of its players; then it is FAILED and registered nowhere |
| SessionEffects.QueueBrings | MM/matching/PartyMatchmakingManager.cpp:174-182 | a ticket the group takes is QUEUED; one it turns away is out of its registry and FAILED, or CANCELLED if it was |
| SessionEffects.MatchBrings | MM/matching/workers/PartyMatchmakingWorker.cpp:276-287 | the tickets of a match are SEARCHING and no other status has changed |
| SessionEffects.CreationBrings | MM/matching/MatchSessionManager.cpp:194-264 | component by component, a match that becomes a session or fails: statuses, registries, the new session and its index entries, the timeout after 60 seconds and the acceptances a second apart |
| SessionEffects.AcceptanceBrings | MM/matching/MatchSessionManager.cpp:327-402 | an awaited acceptance is recorded; the last one makes session and tickets PLACING, with a timeout after 10 seconds and the completion after 2 |
| SessionEffects.RejectionBrings | MM/matching/MatchSessionManager.cpp:339-348 | an awaited rejection makes all tickets FAILED, takes the session out of the maps and punishes for 15 seconds |
| SessionEffects.AwaitedCounts | MM/matching/MatchSessionManager.cpp:327-359 | an answer counts exactly if the player's session is asking and he has not answered it |
| SessionEffects.FailBrings | MM/matching/MatchSessionManager.cpp:305-325 | failing makes all tickets of a live session FAILED and takes exactly it and its players' entries out of the maps |
| SessionEffects.TimeoutBrings | MM/matching/MatchSessionManager.cpp:266-303 | a timeout does the same with TIMED_OUT, exactly in the awaited status |
| SessionEffects.CompleteBrings | MM/matching/MatchSessionManager.cpp:404-453 | a completion does the same with COMPLETED, exactly for a placed session with both answers positive, and with FAILED otherwise |
| SessionEffects.SomeSessionCompletes | MM/matching/MatchSessionManager.cpp:194-453 | a run from the start to a COMPLETED ticket |
| Misrouting.StopRejectsExactlyIfMisrouted | MM/matching/SoloMatchmakingManager.cpp:93-104 | in every run a stop during acceptance rejects, fails the session and punishes if and only if it goes to the solo manager, the player has not answered, and a ticket of the session that lists him was given to the solo manager but is handed back to the party manager; else it leaves all sessions, all answers and the session's tickets as they are |
| Misrouting.StopLeavesSessions | MM/matching/SoloMatchmakingManager.cpp:99-104 | so with well-routed tickets it never does, and none of the session's tickets is registered any more |
| Misrouting.OwnershipPassesIfRouted | MM/matching/MatchSessionManager.cpp:24-47 | whether a match becomes a session or fails, each of its tickets is still registered afterwards if and only if it is misrouted |
| Misrouting.StuckForEver | MM/matching/MatchSessionManager.cpp:35-47 | in every run a ticket that is still registered past SEARCHING stays registered for ever, with either manager, and keeps its players from ever registering there again |
| Misrouting.MisroutedStopRejects | MM/matching/SoloMatchmakingManager.cpp:60-104 | a run from the start in which a single player with a party key is given to the solo manager and fails his session by a stop |
| SessionTheorems.RunStaysSane | MM/matching/MatchSessionManager.cpp:194-453 | every state of every run, with tickets registered with either manager, satisfies all invariants |
| SessionTheorems.LiveSessionsAgree | MM/matching/MatchSessionManager.cpp:73-141 | a live session is REQUIRES_ACCEPTANCE or PLACING with all its tickets, and the index names it for exactly their players |
| SessionTheorems.PlayersInOneSession | MM/matching/MatchSessionManager.cpp:73-108 | in every reachable state no player is in two live sessions |
| SessionTheorems.EveryoneAcceptedOnce | MM/matching/MatchSessionManager.cpp:327-374 | a session is PLACING or was completed only with exactly one answer, an acceptance, of every player; while it asks nobody has rejected and somebody has not accepted |
| SessionTheorems.CompletedThroughSession | MM/matching/MatchSessionManager.cpp:404-453 | a COMPLETED ticket belongs to a session that completed with everybody's acceptance |
| SessionTheorems.OneOwner | MM/matching/PartyMatchmakingManager.cpp:101-182 | who holds a ticket follows from its status: the registry it was given to until SEARCHING, one match on its way while SEARCHING, one session while REQUIRES_ACCEPTANCE or PLACING, nobody once terminal; a ticket that has become a session is still registered if and only if it is misrouted |
| SessionTheorems.MatchedTogetherApart | MM/matching/PartyMatchmakingManager.cpp:209-241 | tickets matched together share no player |
| SessionTheorems.StepFollowsTable | MM/matching/MatchmakingTypes.h:199-213 | no handler moves a ticket but along the table |
| SessionTheorems.TerminalIsFinal | MM/matching/MatchSessionManager.cpp:266-453 | once a ticket is terminal no later accept, timeout, failure or completion changes it |
| SessionTheorems.JobShrinksWeight | MM/workers/AsyncJobWorker.cpp:16-47 | every job run brings the queue closer to empty |
| SessionTheorems.QueueEndsAllSessions | MM/matching/MatchSessionManager.cpp:243-260 | without further input the job queue runs empty and leaves no session and no index entry, whichever zones fail to register |
| SessionTheorems.DrainIsBounded | MM/workers/AsyncJobWorker.cpp:16-47 | however late the jobs run, only so many can run before the queue is empty |
| SessionJobs.RunStaysNamed | MM/matching/MatchSessionManager.cpp:243-399 | in every reachable state the job queue is in order, an acceptance timeout names a session that has begun to ask, and a placement's jobs name one that has been placed |
| SessionOutcome.AskedInTime | MM/matching/MatchSessionManager.cpp:243-260 | the automatic acceptances of a new session put exactly its first 59 players ahead of its acceptance timeout |
| SessionOutcome.AskingEnds | MM/matching/MatchSessionManager.cpp:266-453 | an asking session left to the job queue, among any others and however late the jobs run, is placed and completes or fails with its zone if and only if an acceptance of everybody still asked is ahead of its timeout; otherwise it times out |
| SessionOutcome.CreatedSessionOutcome | MM/matching/MatchSessionManager.cpp:194-453 | a match that becomes a session in any reachable state is placed exactly if each player from the 60th on has an acceptance left over from an earlier session that falls due no later than its timeout |
| SessionOutcome.UntouchedSessionOutcome | MM/matching/MatchSessionManager.cpp:194-453 | with no acceptance left over for its players, a session completes if it has fewer than 60 players and its zone registers, fails if the zone does not, and times out with 60 or more players |
| SessionManagers.MatchSessionManager.constructor | MM/matching/MatchSessionManager.cpp:50-64 | a new manager is in the initial state of the engine |
| SessionManagers.MatchSessionManager.InsertMatchSession | MM/matching/MatchSessionManager.cpp:73-108 | a session is inserted exactly if neither its id nor a player is taken and no two of its tickets list the same player; a failure restores both maps |
| SessionManagers.MatchSessionManager.EraseMatchSession | MM/matching/MatchSessionManager.cpp:110-141 | a session leaves with exactly its players' entries |
| SessionManagers.MatchSessionManager.CreateMatchSession | MM/matching/MatchSessionManager.cpp:194-264 | is the engine's creation handler |
| SessionManagers.MatchSessionManager.OnTimeOutAcceptMatchSession | MM/matching/MatchSessionManager.cpp:266-284 | is the engine's acceptance timeout |
| SessionManagers.MatchSessionManager.OnTimeOutPlaceMatchSession | MM/matching/MatchSessionManager.cpp:286-303 | is the engine's placement timeout |
| SessionManagers.MatchSessionManager.OnFailedMatchSession | MM/matching/MatchSessionManager.cpp:305-325 | is the engine's failure handler |
| SessionManagers.MatchSessionManager.AcceptMatchSession | MM/matching/MatchSessionManager.cpp:327-359 | is the engine's answer handler |
| SessionManagers.MatchSessionManager.PlaceMatchSession | MM/matching/MatchSessionManager.cpp:361-402 | is the engine's placement handler |
| SessionManagers.MatchSessionManager.OnCompleteMatchSession | MM/matching/MatchSessionManager.cpp:404-453 | is the engine's completion handler |
| SessionManagers.MatchSessionManager.NotifyMatchmakingFailure | MM/matching/MatchSessionManager.cpp:24-33 | a ticket that may fail fails and leaves the registry of the manager it belongs to |
| SessionManagers.MatchSessionManager.LeaveRegistry | MM/matching/MatchSessionManager.cpp:35-47 | a ticket leaves the registry of the manager it belongs to |
| SessionManagers.MatchSessionManager.DoWorkerAsyncJob | MM/workers/AsyncJobWorker.cpp:16-47 | runs the first job exactly if it is due |
| SessionManagers.MatchSessionManager.RunUntilIdle | MM/workers/AsyncJobWorker.cpp:16-47 | the job worker left alone terminates with an empty queue, no session and an empty index |
| SessionManagers.MatchSessionManager.JobsAccounted | MM/workers/AsyncJobWorker.cpp:16-68 | no job this manager booked is lost, runs twice or runs early |
| SessionManagers.MatchSessionManager.StartMatchmaking | MM/matching/PartyMatchmakingManager.cpp:159-172 | is the engine's registration, with its failure arm |
| SessionManagers.MatchSessionManager.QueueOutcome | MM/matching/SoloMatchmakingManager.cpp:137-144 | is the engine's reaction to the group's answer |
| SessionManagers.MatchSessionManager.StopMatchmaking | MM/matching/SoloMatchmakingManager.cpp:93-124 | is the engine's stop handler, for both managers |
| TimedQueue.InsertKeepsAll | MM/workers/AsyncJobWorker.cpp:59-68 | a booking keeps the order by due time and adds exactly itself |
| TimedQueue.InsertPosition | MM/workers/AsyncJobWorker.cpp:59-68 | it goes behind every booking due no later and before every booking due later |
| AsyncJobs.NoJobLostOrRepeated | MM/workers/AsyncJobWorker.cpp:16-68 | over every history each booking waits or has run, exactly as often as it was made |
| AsyncJobs.NoJobEarly | MM/workers/AsyncJobWorker.cpp:37-38 | no job runs before it is due |
| AsyncJobs.EarliestRunsFirst | MM/workers/AsyncJobWorker.cpp:26-40 | a job that runs is due no later than any it leaves waiting |
| AsyncJobs.RunsClearWhatIsDue | MM/workers/AsyncJobWorker.cpp:16-47 | as many runs as jobs wait leave none that is due |
| AsyncJobs.AsyncJobWorker.DoWorkerAsyncJob | MM/workers/AsyncJobWorker.cpp:16-47 | takes the first job exactly if it is due |
| AsyncJobs.AsyncJobWorker.Accounted | MM/workers/AsyncJobWorker.cpp:16-68 | so whoever owns a worker loses no booking, runs none twice and none early |
| Penalties.StaysSane | MM/matching/MatchPenaltyManager.cpp:23-44 | a stored penalty is the one last assigned with a clean-up job at its expiry, and a cleaned one has expired |
| Penalties.ClockAndJobs | MM/matching/MatchPenaltyManager.cpp:23-38 | an assignment books one clean-up at its expiry, and the first one runs exactly when it is due |
| Penalties.CleanUpIsInvisible | MM/matching/MatchPenaltyManager.cpp:23-50 | over every run the penalty check says exactly whether some step assigned the player a penalty and the last such step's expiry is later than now |
| Penalties.NoExpiredPenaltyRemains | MM/matching/MatchPenaltyManager.cpp:30-35 | once no job is due exactly the last assigned penalties that have not expired are stored |
| Penalties.MatchPenaltyManager.AddDodgePenalty | MM/matching/MatchPenaltyManager.cpp:23-38 | the player's penalty is the one given, nobody else's changes, and a clean-up is booked for its expiry |
| Penalties.MatchPenaltyManager.RunJob | MM/matching/MatchPenaltyManager.cpp:30-35 | a clean-up clears exactly an expired penalty |
| Penalties.MatchPenaltyManager.HasAnyDodgePenalty | MM/matching/MatchPenaltyManager.cpp:52-62 | whether any player of a request is punished |
| Zones.IndexNeverDangles | MM/integration/IntegrationZoneInstanceManager.cpp:25-108 | in every reachable state, whatever inserts failed, each index entry names a live zone that still lists that player |
| Zones.EraseLeavesNoEntry | MM/integration/IntegrationZoneInstanceManager.cpp:61-76 | erasing a zone leaves no entry naming it |
| Zones.StepWatched | MM/integration/IntegrationZoneInstanceManager.cpp:140-160 | every live zone has an expiry job no later than it expires |
| Zones.ZonesExpire | MM/integration/IntegrationZoneInstanceManager.cpp:140-160 | once no job is due every live zone was heard of within the expiry delay |
| Zones.InsertRegisters | MM/integration/IntegrationZoneInstanceManager.cpp:25-59 | a zone registers, with all its players indexed, if its key and all its players are free, and otherwise nothing is stored under its key |
| Zones.FailedInsertNeverRestores | MM/integration/IntegrationZoneInstanceManager.cpp:46-50 | a failed insert always changes the maps, and how |
| Zones.EraseUndoesInsert | MM/matching/MatchSessionManager.cpp:441-446 | erasing a zone that has just been registered restores both maps; only its expiry job stays booked |
| Zones.InsertMeans | MM/integration/IntegrationZoneInstanceManager.cpp:25-59 | a zone that registers is stored with all its players, leaves the others alone, and its expiry is booked ten seconds after its last report |
| Zones.EraseMeans | MM/integration/IntegrationZoneInstanceManager.cpp:61-76 | erasing takes out one zone and its players' entries and nothing else |
| Zones.RemoveMeans | MM/integration/IntegrationZoneInstanceManager.cpp:92-108 | a player the index finds is in no entry and not in his zone any more; the zone goes exactly if he was the last in it, and all others are as they were |
| Zones.LeaveMeans | MM/integration/IntegrationZoneInstanceManager.cpp:189-201 | leaving is that, and punishes a dodger for 15 seconds; a player not found changes nothing |
| Zones.TerminatedMeans | MM/integration/IntegrationZoneInstanceManager.cpp:212-231 | a zone that ends is gone, no reported player is indexed, each has left the zone he was in, and exactly the indexed ones who have not paid are punished |
| Zones.ServerClosedMeans | MM/integration/IntegrationZoneInstanceManager.cpp:120-138 | a closed server takes exactly the zones of its world and session, none for a negative session number, and only their players' entries |
| Zones.ExpireMeans | MM/integration/IntegrationZoneInstanceManager.cpp:140-160 | an expiry job erases its zone exactly if that was not heard of for ten seconds, and else comes back then |
| Zones.RequestsMean | MM/integration/IntegrationZoneInstanceManager.cpp:174-210 | a leave request books the leave exactly if the player is found; a report moves the zone's last report only |
| ZoneManagers.IntegrationZoneInstanceManager.Insert | MM/integration/IntegrationZoneInstanceManager.cpp:25-59 | is the zone machine's insert |
| ZoneManagers.IntegrationZoneInstanceManager.Erase | MM/integration/IntegrationZoneInstanceManager.cpp:61-76 | is the zone machine's erase |
| ZoneManagers.IntegrationZoneInstanceManager.EraseByPlayerKey | MM/integration/IntegrationZoneInstanceManager.cpp:92-108 | is the zone machine's removal of a player, done exactly if the index finds him |
| ZoneManagers.IntegrationZoneInstanceManager.IntegrationServerClosedAsync | MM/integration/IntegrationZoneInstanceManager.cpp:120-138 | exactly the zones the closed server hosted are gone, in whatever order they come up |
| ZoneManagers.IntegrationZoneInstanceManager.ZoneInstanceExpireAsync | MM/integration/IntegrationZoneInstanceManager.cpp:140-160 | is the zone machine's expiry job |
| ZoneManagers.IntegrationZoneInstanceManager.PlayerLeaveRequest | MM/integration/IntegrationZoneInstanceManager.cpp:174-187 | is the zone machine's leave request, granted exactly if the index names a zone for the player |
| ZoneManagers.IntegrationZoneInstanceManager.PlayerLeaved | MM/integration/IntegrationZoneInstanceManager.cpp:189-201 | is the zone machine's leave, with the dodger's penalty |
| ZoneManagers.IntegrationZoneInstanceManager.ZoneInstanceInfoUpdated | MM/integration/IntegrationZoneInstanceManager.cpp:203-210 | is the zone machine's update |
| ZoneManagers.IntegrationZoneInstanceManager.ZoneInstanceTerminated | MM/integration/IntegrationZoneInstanceManager.cpp:212-231 | is the zone machine's end of a zone |
| ZoneManagers.IntegrationZoneInstanceManager.RunJob | MM/workers/AsyncJobWorker.cpp:16-47 | runs the first zone job exactly if it is due |
| ZoneManagers.IntegrationZoneInstanceManager.JobsAccounted | MM/workers/AsyncJobWorker.cpp:16-68 | no job this manager booked is lost, runs twice or runs early |

## Left out

- Threads, condition variables and locks: a critical section is one atomic step.
- Finer interleavings inside one session or penalty handler, such as an answer between two checks of the same
  handler (MM/matching/MatchSessionManager.cpp:367-374, MM/matching/MatchPenaltyManager.cpp:32-34).
- Roll-back arms that cannot be reached under the lock that is held are proved unreachable and not written
  out: the bucket that refuses an accepted id, the refused change to SEARCHING on a party commit, and the refused
  ticket change inside a session's change of status.
- Null requests, null tickets and missing workers or groups: the model has none.
- Start and end of service, the table of rules by zone, and the round-robin choice of a world: whether a world is
  found is an input of session creation.
- Clean-up of earlier matchmaking and the penalty check before a new request is registered, and backfill requests,
  which register and cancel like any other ticket.
- SessionManagers.MatchSessionManager.OnCompleteMatchSession: the zone manager's answer, and the erasing of a zone
  whose session may not complete, are an input; zones are modelled on their own.
- SessionManagers.MatchSessionManager.StopMatchmaking: of the call into the worker group only the status change is
  modelled here; that the group's queues let go of the ticket is proved with the groups.
- PartyGroup.PartyWorkerGroup.DoWorkerAsyncJob: selection and commit with no step in between; with others in between
  they are Select and TryCommit.
- Penalties that sessions and zones hand out are recorded where they arise.
- Several clock readings inside one handler: a handler sees one time.
- Queue time statistics, status reasons, messages to players and the match-created callback.
- The explicit removal of a ticket from a group, which nothing calls.
- The end marker of the status enumeration, and machine-word overflow of clocks, ids and counters.
- Zones.IndexNeverDangles: not the converse, that every listed player is indexed, which a failed insert breaks.
