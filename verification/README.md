# Webhook delivery: a verified model

A service accepts events from tenants, fans each one out to the tenant's subscribed endpoints, and
delivers the resulting queues in order, at least once, with retries. All coordination between its
workers goes through Postgres: an endpoint is claimed by setting `busy` and a fresh `lease_id`, a
lease that has run out is taken over by whoever claims next, and what a worker writes after its HTTP
call is fenced on the lease it took. The service exists twice, in Node and in Go, with one protocol.

This project models that protocol as one transition system and proves what it promises, for every
number of tenants, endpoints, events, workers and expanders, every interleaving of their statements,
every crash, and every late wake-up.

## How it is laid out

| file | what it holds |
|---|---|
| `tables.dfy` | the rows, the queries and the SQL statements as functions on them |
| `protocol.dfy` | workers, expanders, the receiver, and every step of the system; runs and reachable states |
| `lease.dfy`, `attempts.dfy`, `gate.dfy`, `expansion.dfy`, `effects.dfy` | the parts of the invariant, and how each statement keeps them |
| `system.dfy`, `writeonce.dfy`, `runs.dfy` | the whole invariant over every step and run; what no run ever undoes; putting runs together |
| `guarantees.dfy` | the guarantees, for reachable states and for runs |
| `memory.dfy`, `late.dfy` | what a claim phase still knows when it is late; which of its statements may then run, exactly |
| `writeback.dfy`, `operators.dfy`, `receiver.dfy` | the verdict of an attempt; registering, resuming and pausing over runs; the conforming receiver over sequences of requests |
| `numbering.dfy`, `copies.dfy` | the attempt rows of a delivery over whole runs; how many deliveries an event has on an endpoint |
| `claiming.dfy` | one uninterrupted claim: it is a run, it strands nothing, it agrees with the read side |
| `ranking.dfy`, `selection.dfy`, `fairness.dfy`, `calls.dfy` | ORDER BY and LIMIT; the candidate query; bounded bypass between tenants, and over the claim calls of a run |
| `backoff.dfy`, `drain.dfy` | backoff; how many claims an endpoint can take over a run, and how working it off ends |
| `cycles.dfy` | one expansion call: its candidate query, that it is a run, and that it finds work if there is any |
| `rotation.dfy`, `resume.dfy`, `paging.dfy` | secrets over time, what resume discloses, listing a queue |
| `limits.dfy` | appends out of order: exactly when they do no harm |
| `scenarios.dfy` | reachable states: inputs for what does not hold, and states in which a bound is met |
| `store.dfy` | the operations in imperative form, each proved equal to its specification |

Between two SQL statements that commit on their own, anything may happen: each is a step of its own.
What runs in one transaction (a write-back, an expansion) is one step, except that an expansion
transaction takes its lock, reads its event and commits in three, and a replay's in two. Such a transaction sees the time of
its BEGIN throughout, which may lie any time before its first step in the model. A worker may stop
for ever after any step (`Crash`), or wake up and go on after any time. A request on the wire may arrive
late, more than once or never, and a reply may be lost. What a worker gets back from an endpoint may be
any status or none; where a conforming receiver is behind the endpoint, a 2xx must be one it gave.

Columns marked "history" in `tables.dfy` exist in no table. They record what happened, so that runs can
be talked about; no step reads them.

## What is assumed

- The database's `now()` and the workers' `Date.now()` read one clock, which never goes back. In a
  transaction `now()` is the time of its BEGIN; a statement that commits on its own takes no time.
- Lease ids are never used twice.
- A claim phase runs within its own lease. Its statements from the lease UPDATE to the in_flight mark
  (node/src/worker/delivery.ts:82-156) carry no fence, so in the transition system the four that write
  deliveries or attempts need `clock <= since + lease duration`. The insert of the attempt and the in_flight mark are
  separate steps all the same, so a worker may stop between them. Any stall after the mark is allowed.
  `late.dfy` does without this assumption: executed at any time, each of the four keeps what every step guarantees
  iff a condition on the tables and the present lease holder is met (`LateClaims.KeptIff`). Holding the
  lease still meets it; and any number of late claim phases that meet it are harmless
  (`LateClaims.LateRunKeeps`). The mark needs the delivery unmarked since it was picked, the endpoint busy, and whoever else
  holds the lease on the way to a reclaim. The reclaim needs that no holder is past its mark, and its second
  statement that the first was executed for what is in flight. The insert needs the delivery unmarked, all before
  it resolved, and the endpoint not halted. `Scenarios.StalledClaimReopens` and
  `Scenarios.LateReclaimClosesLive` are reachable states in which a late statement does harm.
- `deliveries.seq` follows commit order within an endpoint, and `events.seq` within a tenant. The
  advisory lock gives this for the fan-out of events; for concurrent publishes, and for a replay
  racing live traffic, it is an assumption. `Limits.AppendIsSafeIff` says for one append out of order
  when it does no harm to the queues, to the workers that hold a head at that moment and to the
  listings under way.
- Effects only: the endpoint has a conforming receiver behind it. No other guarantee needs one.
- Fairness only: claim calls do not overlap, and a call begins later than every stamp set before it. Tenants may
  be added between calls; each counts as one more ahead.
- Rotation only: HMAC digests contain no comma, different secrets give different digests, and
  generated secrets do not repeat.

## Where the code and its documentation differ

The model follows the code.

- ARCHITECTURE.md:127-131 describes a claim as `FOR UPDATE SKIP LOCKED` on the endpoint row in one
  short transaction, in order of insertion with no sequence counter. The code runs a plain candidate
  query, a conditional UPDATE, and separate autocommitted statements after it, and orders by
  `deliveries.seq`.
- node/src/routes/events.ts:76-78 says an event has at most one delivery per endpoint. It has the live
  one and one for every copy a replay of the endpoint made, so at most one iff none did
  (`Copies.AtMostOneUnlessReplayed`). `Scenarios.DeliveredTwice` is a reachable state with two.
- The attempt ceiling bounds retries, not attempts: a lease expiry requeues without looking at it.
  `Guarantees.AttemptsAreAccountedFor` gives the bound, the ceiling plus the expiries;
  `Scenarios.CeilingIsPassed` meets it in a reachable state, for every configuration and any number of expiries.
- `attempt_number` has no gap and no repetition over a run iff every attempt row the run inserted for the
  delivery was followed by its in_flight mark (`Numbering.NumberedIff`). A worker that stops in between spoils
  it for good (`Numbering.StoppedClaimStays`). Its row is open beside the one of the next worker, and
  only a reclaim during a later attempt closes it (`Numbering.OnlyReclaimCloses`); otherwise it is open
  for ever. `Scenarios.OpenAlongside` is a reachable state.
- Resume is meant to name the failed deliveries it leaves behind. It goes by creation times, and those
  are the times of BEGIN, which need not follow the queue. It misses a failure iff a delivery that waits
  behind it was created no later (`Resuming.SkippedIff`), and names all of them however a queue turns out iff
  creation times increase along it (`Resuming.DisclosesAllIff`). Two reachable states miss one: the
  first row of a replay batch failed (`Scenarios.BatchHidesFailure`); and, with no two creation times equal, of
  two expansions the one that began later got the lock first (`Scenarios.LateStarterHidesFailure`).
- Rotating twice within one overlap cuts off a receiver that still holds the oldest secret, inside its
  promised overlap: `Rotation.OverlapIsKeptIff`, and `Rotation.RotatingTwiceCutsOff` for a run from any state.

## Model

| member | source | states |
|---|---|---|
| Guarantees.QueuesKeepTheirShape | node/src/worker/delivery.ts:80-261 | in every reachable state each queue is resolved deliveries, then at most one in flight on a busy endpoint, then pending ones |
| Guarantees.LeaseHolderIsAlone | go/internal/worker/delivery.go:308-400 | while a sending worker's lease is current, its delivery is the endpoint's only one in flight; its attempt is the only open row iff every open row there was marked as sent, and any other open row was left by a claim that stopped before its mark |
| Guarantees.LateWriteBackIsInert | node/src/worker/delivery.ts:206-223 | a write-back whose delivery or attempt was settled by someone else changes nothing |
| Guarantees.NothingIsUndone | node/src/worker/delivery.ts:224-253 | over any run, resolved deliveries, closed attempts, expanded events and expanded replays never change again |
| Guarantees.TakeoverIsNeverMissed | node/src/worker/delivery.ts:54-105 | a lease won from a stale holder was seen busy by the earlier candidate query |
| Guarantees.NeedlessReclaimIsInert | node/src/worker/delivery.ts:94-105 | a reclaim decided on an outdated busy flag changes nothing |
| Guarantees.LeaseLastsItsDuration | node/src/config.ts:51-57 | nobody loses a lease before its whole duration is over |
| Guarantees.LiveWorkerKeepsItsLease | node/src/config.ts:51-57 | sending within the timeout, and at most max(timeout, floor) for the rest, never ends in lease_lost |
| Guarantees.OnlyTheHeadIsAttempted | node/src/worker/delivery.ts:118-156 | an attempt is recorded only for a ready delivery with everything before it resolved, which is what the read side calls the head |
| Guarantees.AttemptsFollowPublication | node/src/worker/expansion.ts:22-59 | attempts on an endpoint go through its queue in order, and live deliveries in publication order, over whole runs with interleaved expanders |
| Guarantees.RetryWaitsItsBackoff | node/src/worker/delivery.ts:242-249 | after a failed attempt no worker attempts the delivery again before the scheduled delay is over |
| Guarantees.AttemptsAreAccountedFor | node/src/worker/delivery.ts:94-156 | attempts that were marked are numbered 1..attempt_count; count = retries + expiries + 1 unless pending, at most max(1, maxAttempts) + expiries; total backoff at most the sum of the ceilings |
| Scenarios.CeilingIsPassed | node/src/worker/delivery.ts:94-105 | for every configuration and n, a reachable delivery with n expiries has exactly max(1, maxAttempts) + n attempts |
| Numbering.NumberedIff | node/src/worker/delivery.ts:151-156 | over any run, attempt_count is the number of marks, and the attempt rows are numbered 1..attempt_count iff the run recorded as many attempts as it marked |
| Numbering.StoppedClaimStays | node/src/worker/delivery.ts:151-156 | a worker that stops between the insert and the mark leaves its row for good: in every later state the numbering is not 1..attempt_count |
| Numbering.OnlyReclaimCloses | node/src/worker/delivery.ts:94-103 | an attempt row that was not marked is closed by no step but a reclaim while its delivery is in flight |
| Numbering.OpenForEver | node/src/worker/delivery.ts:94-103 | an attempt row that is open when its delivery is resolved is open in every later state |
| Scenarios.OpenAlongside | node/src/worker/delivery.ts:151-156 | a reachable state with two open rows while one worker sends, whose write-back leaves the first open for ever and the numbers 1, 1 |
| Guarantees.SucceededMeansOneWin | node/src/worker/delivery.ts:225-237 | exactly one attempt row holds a 2xx if the delivery succeeded, none otherwise |
| WriteBacks.WriteBackOnRows | node/src/worker/delivery.ts:216-253 | under the lease, for every reply: 200-299 succeeds; anything else, no reply included, fails and halts at attempt maxAttempts or later, and below it leaves the delivery pending at now + delay with the status as it was; the attempt keeps the reply, the endpoint is free, nothing else changes; without the lease nothing does |
| WriteBacks.FailedIff | node/src/worker/delivery.ts:234-250 | in every reachable state a delivery has failed iff an attempt of it numbered maxAttempts or higher came back without a 2xx; so it was attempted at least that often |
| WriteBacks.MissIsRetried | node/src/worker/delivery.ts:242-249 | below the ceiling, an attempt without a 2xx on an active endpoint is followed by a claim of the same delivery once the delay has passed |
| Guarantees.OneFailurePerResume | node/src/worker/delivery.ts:238-241 | failed deliveries of an endpoint number at most its resumes plus one, and a halted endpoint is idle |
| Guarantees.NothingIsAttemptedWhileHalted | node/src/routes/endpoints.ts:143-177 | over any run without a resume, a halted endpoint gets no attempt, none of its deliveries changes, and it does not become active, paused in between or not |
| Guarantees.NothingIsAttemptedWhileShut | node/src/worker/delivery.ts:80-89 | over any run without a resume, an endpoint that is not active and held by nobody gets no attempt, none of its deliveries changes, and it stays so |
| Operators.ResumeRestarts | node/src/routes/endpoints.ts:158-163 | from every reachable state, a resume makes the endpoint active and changes nothing else, and its reported head is claimed once its backoff, and the time allowed to a worker that holds it, are over |
| Operators.PauseQuiets | node/src/routes/endpoints.ts:143-157 | a pause changes the status only; until a resume the endpoint is leased to nobody but its holder at the pause, and without one nothing of it is attempted or changes |
| Operators.RegisterAdds | node/src/routes/endpoints.ts:71-97 | a registration adds one active, idle endpoint with the given types, signing with its one secret |
| Guarantees.EffectHappensOnce | node/test/conformingReceiver.ts:17-44 | behind an endpoint with a conforming receiver, its logic succeeds at most once per event, and has done so for every succeeded delivery |
| Receiving.ServesOnce | node/test/conformingReceiver.ts:21-43 | over any sequence of requests: an event is processed once, iff its logic succeeded in some request; its requests are counted up to that one; 200 is answered from it on and 500 before |
| Scenarios.DeliveredToReceiver | node/test/conformingReceiver.ts:21-43 | a reachable state in which a conforming receiver has processed an event once and its delivery succeeded |
| Guarantees.FanOutHappensOnce | node/src/worker/expansion.ts:46-58 | an event has one live delivery per endpoint of its tenant that was registered at its expansion and asked for its type, and none before |
| Guarantees.DeliveredToSubscribers | node/src/worker/expansion.ts:51-55 | in every reachable state each delivery's event has the tenant of its endpoint and a type the endpoint asked for, replays included |
| Copies.AtMostOneUnlessReplayed | node/src/routes/events.ts:76-78 | in every reachable state an event has, on an endpoint, its live delivery if it fanned out to it plus one per copy by the endpoint's replays; at most one iff no copy |
| Scenarios.DeliveredTwice | node/src/worker/replayExpansion.ts:42-53 | a reachable state with two deliveries of one event on one endpoint |
| Guarantees.ExpansionAppends | go/internal/worker/expansion.go:60-109 | an expansion adds one fresh pending delivery, ready at once, for exactly the tenant's endpoints whose types contain the event's, and touches no old row |
| Guarantees.PublishIsIdempotent | node/src/routes/events.ts:56-73 | every later publish with the same tenant and key returns the first id and changes nothing |
| Guarantees.ReplayRequestIsIdempotent | node/src/routes/replays.ts:47-63 | the same for replay requests with the same endpoint and key |
| Guarantees.ReplayAppendsItsWindow | node/src/worker/replayExpansion.ts:42-53 | a replay appends one fresh delivery for exactly the deliveries of its endpoint created in its range that succeeded or failed, in queue order, behind everything the endpoint has |
| Guarantees.ReplayHappensOnce | node/src/worker/replayExpansion.ts:27-57 | in every later state the deliveries of a replay are that one batch |
| SystemInvariant.StepKeepsInv | go/internal/worker/delivery.go:75-400 | every step of every actor keeps the whole invariant |
| SystemInvariant.ReachableInv | go/internal/worker/delivery.go:75-400 | it holds in every reachable state |
| WriteOnce.RunGrows | node/src/worker/delivery.ts:206-261 | rows, attempt counts and next_attempt_at only grow; what is settled stays |
| Claiming.TryClaimIsARun | node/src/worker/delivery.ts:80-178 | an uninterrupted claim is a run of the transition system, so every guarantee applies to it |
| Claiming.ClaimedIff | node/src/worker/delivery.ts:80-156 | a try claims iff it wins the lease and the head the read side reports is ready, reclaim or not; a try that fails after winning frees the endpoint |
| Claiming.ClaimOnRows | node/src/worker/delivery.ts:80-178 | what a claim of a due endpoint leaves, row by row, in every reachable state: the head in flight under the next number, a new open attempt, what a lost worker left open closed as expired, the lease and the stamp taken now, nothing else changed |
| Claiming.NothingIsStranded | node/src/worker/delivery.ts:54-70 | in every reachable state an active endpoint with unresolved work passes the candidate filter and its head is claimed, once its lease and its head's backoff are over |
| Claiming.BlockedMeansBehind | node/src/lib/deliveryQueries.ts:1-18 | a delivery is reported blocked iff it is pending behind an unresolved one; it is then blocked on the first of those |
| Claiming.ReportedHeadIsNext | node/src/lib/deliveryQueries.ts:9-14 | the head a reader was told is what the endpoint's next attempt is for, iff it was not resolved since |
| Selection.SelectedIsSelection | node/src/worker/delivery.ts:54-70 | the first rows of the computed ranking are a possible selection |
| Selection.SelectionIff | node/src/worker/delivery.ts:54-70 | a list is a possible selection iff it answers the query: at most twenty endpoints that are active, idle or leased before the cutoff, with a delivery due or in flight; never served tenants first, then by last service, then by the oldest such delivery; none left out that comes earlier |
| Selection.SelectedAnswers | node/src/worker/delivery.ts:54-70 | the computed list is such an answer |
| Selection.MinReadyIsLeast | node/src/worker/delivery.ts:66-68 | the second sort key is the least seq of the endpoint's ready deliveries |
| Fairness.StampsOfCall | node/src/worker/delivery.ts:73-92 | a claim call stamps exactly the tenants it tries, each with the time of its last try, and claims for the last candidate tried |
| Fairness.OnlyAheadAreTried | docs/adr/0004-tenant-fairness-bound.md:15-19 | while a tenant with a candidate is not tried, only tenants served no later than it are, and at least one is |
| Fairness.PassedOverAtMost | docs/adr/0004-tenant-fairness-bound.md:15-19 | a tenant with a candidate is passed over in at most as many calls as there are tenants served no later than it, and tenants added meanwhile |
| Fairness.OneClaimEach | docs/adr/0004-tenant-fairness-bound.md:15-19 | meanwhile every other tenant gets at most one claim |
| Fairness.TriedIsServed | node/src/worker/delivery.ts:73-78 | when all its candidates have ready heads, the call that tries a tenant claims for it |
| Fairness.CallClaimsFirstReady | node/src/worker/delivery.ts:73-78 | in every reachable state a call claims the reported head of the first candidate whose head is ready when tried, and nothing iff none is |
| Fairness.DueIsServed | node/src/worker/delivery.ts:73-78 | in a reachable state, a call that tries a tenant all of whose candidates are due claims for it |
| ClaimCalls.CallIsARun | node/src/worker/delivery.ts:51-78 | a whole claim call, with the time its tries take, is a run of the transition system that leaves the tables of the claim-call specification |
| ClaimCalls.StampsStay | node/src/worker/delivery.ts:92 | a run without the stamp statement of a claim leaves every tenant's stamp as it was |
| ClaimCalls.PassedOverInRuns | docs/adr/0004-tenant-fairness-bound.md:15-19 | over the claim calls of any run, a tenant with a candidate is passed over at most as often as tenants were ahead of it or added, and every other tenant gets at most one claim meanwhile |
| Backoff.DelaysAreDraws | node/src/worker/delivery.ts:13-19 | the possible retry delays are exactly those the random draws give |
| Backoff.CeilingGrows | node/src/worker/delivery.ts:13-19 | the ceiling starts at the base, is multiplied per attempt, and is capped |
| Draining.StepMovesHead | node/src/worker/delivery.ts:94-156 | every step of the system moves at most one delivery, the unresolved head of an endpoint that is not halted, and closes the endpoint iff it fails it |
| Draining.DrainIsBounded | node/src/worker/delivery.ts:232-251 | over any run, the claims of an endpoint are at most max(1, maxAttempts) for each delivery unresolved at its start or new, and one for each lease that expired |
| Draining.RunOutcome | node/src/worker/delivery.ts:232-251 | over any run without a resume from an open endpoint: while open, nothing failed; once closed, exactly one delivery failed since, and nothing behind it was touched |
| Draining.DrainEnds | node/src/worker/delivery.ts:232-251 | with nothing left to claim, an active endpoint has been delivered everything; a halted one failed one delivery, everything before it delivered, everything behind it as it was |
| Draining.BacklogCounts | node/src/routes/endpoints.ts:177-180 | the reported backlog is the number of the endpoint's deliveries that are pending or in flight |
| Cycles.PendingTenantsIsTheQuery | node/src/worker/expansion.ts:23-26 | the computed answer is the query's: at most twenty tenants with a pending event, each once, oldest first, none left out that is older |
| Cycles.CycleExpandsIff | node/src/worker/expansion.ts:22-68 | a call expands an event iff one of the listed tenants is not locked; otherwise it changes nothing |
| Cycles.CycleTakesOldest | node/src/worker/expansion.ts:22-68 | with no lock held, a call expands the oldest pending event of all tenants |
| Cycles.ExpandTenantIsARun | go/internal/worker/expansion.go:60-109 | one tenant's transaction, whenever it began, is a run of the transition system |
| Cycles.PendingReplaysIsTheQuery | node/src/worker/replayExpansion.ts:23-25 | the computed answer is the query's: at most twenty pending replays, each once, by creation time, none left out that is older |
| Cycles.ReplayCycleExpandsIff | node/src/worker/replayExpansion.ts:22-66 | a call expands a replay iff one of those listed is not locked; otherwise it changes nothing |
| Cycles.ReplayCycleTakesOldest | node/src/worker/replayExpansion.ts:22-66 | with no row locked, a call expands a pending replay than which none is older |
| Cycles.ExpandReplayIsARun | go/internal/worker/replay_expansion.go:60-107 | one replay's transaction, whenever it began, is a run of the transition system |
| Rotation.SplitJoin | node/src/lib/signing.ts:8-13 | splitting the joined signature header gives the signatures back |
| Rotation.AcceptedIff | node/test/rotation.overlap.test.ts:20-23 | a receiver accepts a signed message iff it holds one of the secrets it was signed with |
| Rotation.SignedStringTells | node/src/lib/signing.ts:7-13 | timestamps and bodies that differ give different signed strings |
| Rotation.RotatedSigns | node/src/routes/endpoints.ts:205-223 | from a rotation on, claims sign with the new secret, then the replaced one until the expiry, and no other |
| Rotation.SecretsOfRun | node/src/routes/endpoints.ts:205-223 | after any run an endpoint's secrets are what its rotations, in order, made of them |
| Rotation.ActiveIff | node/src/worker/delivery.ts:158-162 | a secret signs a claim iff it was not replaced, or replaced once by a rotation that has not expired |
| Rotation.OverlapIsKeptIff | node/src/routes/endpoints.ts:205-233 | over any run, a replaced secret works in every state of its overlap iff the next rotation is at least one overlap later |
| Rotation.RotatingTwiceCutsOff | node/src/routes/endpoints.ts:205-233 | from every state, two rotations at once are a run that cuts the first secret off with its whole overlap to come |
| Rotation.ReceiverKeepsVerifying | docs/adr/0003-multi-sign-secret-rotation.md:1-30 | with rotations one overlap apart, a receiver verifies everything from a secret's installation until one overlap after its replacement |
| Resuming.SkippedIff | node/src/routes/endpoints.ts:184-197 | resume names, in order of creation, exactly the failed deliveries that no delivery waiting behind them was created before or with; all of them when creation times increase along the queue |
| Resuming.DisclosesAllIff | node/src/routes/endpoints.ts:184-197 | whatever becomes of a queue, resume names every failure, iff creation times strictly increase along it |
| Scenarios.LateStarterHidesFailure | docs/adr/0007-deliveries-seq-for-replay-ordering.md:3-9 | a reachable state with distinct creation times in which resume does not name the failure |
| Scenarios.BatchHidesFailure | node/src/routes/endpoints.ts:184-197 | a reachable state in which a replay's first row failed and resume does not name it |
| Paging.RowsPastIsTheQuery | go/internal/api/endpoints.go:404-413 | the page query returns all rows past the cursor, in the order of seq |
| Paging.PagesAreTheQueue | go/internal/api/endpoints.go:388-457 | following next_cursor while the queue grows and changes lists the queue at the last page, each delivery once and in order, starting with those of the first page |
| Paging.ListingEnds | go/internal/api/endpoints.go:388-457 | a listing goes on only while the queue is longer than what was listed |
| Paging.ListingOfARun | go/internal/api/endpoints.go:388-457 | so over the states of any run: what a listing collects is the queue at its last page |
| Paging.ZeroLimitListsNothing | node/src/lib/pagination.ts:26-30 | with a limit of zero the listing ends at once with nothing |
| ClaimMemory.ReachableRemembers | node/src/worker/delivery.ts:110-156 | in every reachable state, a worker that picked a delivery, however late: unless it was marked since, the delivery is pending and ready, and the worker's attempt row is open, unmarked and its own |
| LateClaims.KeptIff | node/src/worker/delivery.ts:94-156 | each of the two reclaim statements, the insert and the mark, executed at any time, keeps the invariant, what is settled, and that only ready heads are attempted, iff its condition holds |
| LateClaims.HolderFits | node/src/worker/delivery.ts:94-156 | a worker that is within its time, or late but still holds its lease, meets the condition |
| LateClaims.LateRunKeeps | node/src/worker/delivery.ts:94-156 | over any run in which late statements meet their conditions, the invariant holds and nothing settled is undone |
| LateClaims.InsertKeepsInvIff | node/src/worker/delivery.ts:152-155 | the insert alone keeps the invariant iff everything before the delivery is resolved and nothing behind it was attempted |
| LateClaims.MarkOnFreeLosesOrder | node/src/worker/delivery.ts:156 | after a late mark on a free endpoint the next claim takes the delivery behind, and two are in flight |
| Scenarios.StalledClaimReopens | node/src/worker/delivery.ts:152-156 | a reachable state whose stalled mark re-opens a succeeded delivery; the next claim then takes the one behind it |
| Scenarios.LateReclaimClosesLive | node/src/worker/delivery.ts:94-105 | a reachable state whose stalled reclaim closes the attempt the present holder is sending, which its write-back then changes again |
| Limits.AppendIsSafeIff | node/src/worker/replayExpansion.ts:42-51 | appended rows leave the queues' shape, also after the workers holding a head have marked it, and lie past every cursor, iff none comes before a delivery that left pending, a held head, or a cursor |
| Service.Store.TryClaimEndpoint | node/src/worker/delivery.ts:80-178 | the new tables and the claim are those of the claim specification |
| Service.Store.ClaimDelivery | node/src/worker/delivery.ts:51-78 | the loop over the selected candidates does what the claim-call specification says |
| Service.Store.CompleteDelivery | node/src/worker/delivery.ts:206-261 | the new tables and the verdict are those of the fenced write-back; which verdict, state, status and next_attempt_at for which reply is written out |
| Service.Store.RunExpansionCycle | node/src/worker/expansion.ts:22-68 | query and loop do what the expansion-call specification says |
| Service.Store.RunReplayExpansionCycle | node/src/worker/replayExpansion.ts:22-66 | the same for replays |
| Service.Store.Publish | node/src/routes/events.ts:37-73 | the answered event has the tenant and key; it is an old one, or the one new row, with the given type; a missing key or type is refused |
| Service.Store.RequestReplays | node/src/routes/replays.ts:22-66 | the same with the given range; a bad range, a missing key or a foreign endpoint is refused |
| Service.Store.Resume | node/src/routes/endpoints.ts:158-203 | the tenant's endpoint becomes active, nothing else changes; returns its backlog and skipped failures, in order of creation |
| Service.Store.Pause | node/src/routes/endpoints.ts:143-157 | the tenant's endpoint becomes paused, nothing else changes |
| Service.Store.Rotate | node/src/routes/endpoints.ts:205-233 | the endpoint's secrets become the new one, the old one and the end of the overlap; nothing else changes |
| Service.Store.ListDeliveries | go/internal/api/endpoints.go:388-457 | the scan returns the page of the paging specification |
| Service.ConformingReceiver.Request | node/test/conformingReceiver.ts:21-43 | one request changes the receiver as the receiver of the transition system |

## Left out

- HTTP, TLS, DNS and sockets: a send gives any status, nothing, or never returns.
- Hashing, encryption and id generation: an HMAC is a function parameter, lease ids count up.
- Address denylists and URL validation: a rejected address is one more send without a 2xx.
- The created_at cursor of the other listings: its timestamps lose their microseconds in Node.
- Authentication beyond an endpoint's tenant, JSON, migrations, health statistics, latency: plumbing.
- Frontend, chaos, load and scenario harnesses: not part of the protocol.
- Overlapping claim calls (fairness only): a stamp set by one call after another call's query is outside the bound.
- Fairness between endpoints of one tenant beyond the first twenty candidates: the code does not give it.
- Counts over runs with late claim statements (numbering.dfy, drain.dfy, calls.dfy): they are stated for runs within the lease assumption.
- Service.Store.TryClaimEndpoint: one call with nothing in between; interleavings are in the transition system.
- The secrets a claim carries: they are taken from the endpoint's row at the claim (rotation.dfy), not kept in the worker's state.
