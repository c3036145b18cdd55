# Host reconciliation, verified

A Dafny model of the Host controller of the Control Plane, its database and the
fake provider, with proofs about every interleaving of the three.

The controller keeps two databases in step that are never updated together. It
lists all Host claims, handles deleting claims first and live ones after, and
for each one looks its resource up at the provider, commits its intent,
changes the provider and commits the result, in separate writes. Between any
two of those calls an RPC may create or release a claim, a handler may wake the
loop, the clock may move, a fault may be injected, and the process may die.

## How the project is built

- `Domain`, `Transitions`: records, the condition list, retry state and
  backoff, and how the controller rewrites its copies of a claim and a host.
- `Tables`: the two tables as maps with the schema's constraints, one function
  per transaction; an error reply carries the unchanged tables.
- `Catalog`, `Fake`: the plan catalogue, the provider's resources and its
  injected faults, as values.
- `Protocol`: the step machine. Every storage or provider call is one step with
  the local copies it holds; RPC commits, wakes, ticks, crashes, restarts and
  storage failures are steps too. Provider responses are part of the step, so
  this machine allows any response.
- `Invariants`, `Steps`, `Guarantees`, `Sorted`, `Theorems`: what every step and
  every run keeps against an arbitrary provider. `Backoff`, `ClaimBackoff`: the
  exact retry times over runs. `Limits`: what the controller does not promise,
  with the runs that show it.
- `Status`, `StatusSteps`, `StatusTheorems`: what the stored rows say is true. One
  law ties every status, reason, message, generation, time and retry state of a
  claim and of a host to the rest of its row, and every run keeps it.
- `FakeSystem`, `Order`, `FailedHosts`, `Outcomes`, `FakeTheorems`: the machine with
  the fake provider answering; the stronger invariants that need it, the order of
  work inside a pass, and what becomes of failed hosts, of faults and of calls
  whose response is lost.
- `Convergence`, `Quiescence`, `Passes`, `Liveness`, `Stability`: how much progress
  an undisturbed stretch can make, what an idle pass proves, that such a state is
  reached, that it can be reached from anywhere, and that it is then left alone.
- `Conditions`, `Database`, `FakeDatabase`, `Copies`, `Controller`: the objects
  of the program in imperative form. Each method is proved to do what its value
  function says; `Controller.HostController` carries the run of the step machine
  it has performed as ghost state, and at each of its await points any number
  of moves of the rest of the system may happen, so whatever it does is a run
  the theorems cover. `ControllerTheorems` states them for the running objects.

## Assumptions

- UUIDs are new: a Host ID or provider resource ID is not one issued before.
  Identifiers are natural numbers with a history of those issued.
- The clock does not go back. A timestamp is the reading it was taken from, in
  milliseconds, and the stored order of creation times is their order.
- Texts that are only compared are ordered integers; reasons and messages are
  enumerated, with the values they mention as arguments.
- The provider catalogue does not change and its vCPU counts fit the interface.
- Only the controller calls `ensure_host`, `save_host`, `finalize_claim`,
  `create` and `delete`, and there is one controller.
- A storage call that fails with an I/O error is rolled back (steps
  `StorageFails` and `ListFails`). The convergence results exclude such steps.
- A provider call is one step. Besides the responses of the fake, a `select_plan`
  or an `observe` may report an I/O error, and so may a `create` or a `delete`
  whether or not its effect took place (step `ProviderFails`); the convergence
  results exclude these steps too. A crash between the use of a fault and its effect is a fault
  injection with a smaller count and then a crash.

## Where the code does less than one might expect

- A wake can be lost. A drain takes the permit before it lists, so when the first
  `list_claims` of a drain fails the mutation waits for the next interval tick.
  `Theorems.FailedListingDropsTheWake` is such a run. `Theorems.NoLostWakeup`
  shows that nothing is lost in any other case, also when a later listing of the
  drain fails, and `Theorems.WakesLostExactlyWhen` says which handlers must have
  ended for the first one to lose something.
- A create may still be issued for a claim that is released while the step is
  under way: `Limits.CreateAfterRelease` is such a run. The resource stays backed
  by its row and is cleaned up later.
- `docs/checkpoints/host-control-v1/implementation.md` speaks of a stable order by
  ID. The code orders by creation time first and ID second, and so does the model.
- The attempt counter grows only over consecutive failed observations: committing
  an intent resets it, so repeated create or delete failures do not add up
  (`Limits.FailedMutationsCountOnce`).

## Model

| member | source | states |
|---|---|---|
| Domain.SetConditionRefinesMapUpdate | crates/control-plane/src/domain.rs:146-171 | the list is a map: one type is merged, every other type keeps its entry, the result reports exactly whether the list changed, and a sorted list without duplicates stays one |
| Domain.SetConditionIdempotent | crates/control-plane/src/domain.rs:151-157 | setting a condition a second time, at any later time, changes nothing |
| Domain.SortKeepsLookup | crates/control-plane/src/domain.rs:167-169 | the stable sort after a push sorts and keeps the first entry of every type |
| Domain.ConditionHistory | crates/control-plane/src/domain.rs:146-171 | over any sequence of calls: types stay unique and sorted, types not called are untouched, and the transition time of a type is that of the first call in its current run of equal status and reason |
| Domain.RetryDeadlineBounded | crates/control-plane/src/domain.rs:52-56 | the delay is the capped power of two, saturates instead of overflowing, is monotone in the attempt and lies between one second and one minute |
| Domain.InitialConditions | crates/control-plane/src/domain.rs:59-125 | new claims and hosts start with unique sorted conditions, a claim with exactly Accepted, Bound and Ready, and are not Ready |
| Tables.ValidateResources | crates/control-plane/src/storage.rs:664-683 | accepts exactly the positive requirements that fit an SQLite integer |
| Tables.TransactionsKeepSchema | crates/control-plane/migrations/control-plane/0001_initial.sql:19-35 | every transaction keeps the foreign key, UNIQUE claim_id and UNIQUE provider_resource_id |
| Tables.CreateAndEnsureAreIdempotent | crates/control-plane/src/storage.rs:77-131 | repeating `create_claim` or `ensure_host` with equal arguments returns the same record from the same tables, even at another time and with another new ID; an error changes nothing |
| Tables.CreateClaimConflicts | crates/control-plane/src/storage.rs:85-100 | a request for an existing ID conflicts exactly when the spec differs, and never writes |
| Tables.ListingIsUnique | crates/control-plane/src/storage.rs:154-171 | the order by creation time and ID determines the whole listing |
| Tables.ListingIsByAge | crates/control-plane/src/storage.rs:154-171 | a listing has every claim once, the older before the younger and, of two claims of the same time, the smaller ID first |
| Tables.CreationShows | crates/control-plane/src/domain.rs:59-125 | a claim is made exactly for an unknown ID and a storable spec, the spec is refused exactly when a component is zero or a byte count exceeds an SQLite integer, and the new claim is dated now, live, not evaluated, not bound and not ready, and no other row is touched |
| Tables.ReleaseShows | crates/control-plane/src/storage.rs:173-240 | the first release of a claim dates it, shows DeletionRequested on Ready and resets its retry; its other conditions and all other rows keep; a second one changes nothing and an unknown ID fails |
| Tables.EnsureBinds | crates/control-plane/src/storage.rs:284-428 | a host is made exactly for a live claim that has none; the claim then shows Accepted, Bound naming this host and not Ready, at its generation and without a retry, the host is pending, and no other row is touched |
| Transitions.MarkUnsatisfiableSettles | crates/control-plane/src/controller.rs:195-240 | marking an unsatisfiable claim reports a change exactly when the claim did not show the verdict yet, whatever the time |
| Transitions.BackoffIsExact | crates/control-plane/src/controller.rs:669-684 | after k consecutive failed observations from a reset state the delay is exactly min(1000 * 2^min(k,6), 60000), saturating, for every k and all clock readings |
| Transitions.ReleaseBackoffIsExact | crates/control-plane/src/controller.rs:711-724 | the same exact backoff over consecutive failed observations of a claim being released, from any earlier attempt count, and nothing but the retry state changes |
| Transitions.ClaimBackoffIsExact | crates/control-plane/src/controller.rs:647-665 | the same exact backoff for a claim whose selections fail, from any earlier attempt count |
| Transitions.ObservationShows | crates/control-plane/src/controller.rs:442-526 | after an observation the host and the claim are Ready exactly when the resource is, each with the reason, and the claim is accepted and bound to this host |
| Transitions.HostErrorShows | crates/control-plane/src/controller.rs:669-709 | a failed call shows on the Ready condition of both records alike, as rejected or as unavailable, and on no other condition |
| Transitions.ClaimErrorShows | crates/control-plane/src/controller.rs:624-667 | a failed selection shows on Accepted, as rejected or as unavailable, and on no other condition |
| Backoff.BackoffOverRuns | crates/control-plane/src/controller.rs:669-724 | over runs, in either loop and with anything happening in between: while the claim lives and each lookup of its host fails with a transient error, the stored attempt counts the failures and the stored deadline lies exactly the capped power of two after the last of them |
| ClaimBackoff.ClaimBackoffOverRuns | crates/control-plane/src/controller.rs:242-245 | over runs, with anything happening in between: while a claim is live and has no host and each selection for it fails with a transient error, it gets no host, its stored attempt counts the failures and its stored deadline lies exactly the capped power of two after the last of them |
| Backoff.LookedUpExactlyWhenDue | crates/control-plane/src/controller.rs:131-135 | over runs, a fetched host is looked up if and only if its deadline has come by the reading of the pass and, in the live loop, it has not failed; otherwise the pass goes on |
| Backoff.SelectedExactlyWhenDue | crates/control-plane/src/controller.rs:150-162 | over runs, a plan is selected for a live claim without a host if and only if its deadline has come by the reading of the pass |
| StatusTheorems.RunsTell | crates/control-plane/src/controller.rs:442-724 | in every reachable state, against any provider, each stored condition, generation, time and retry state fits the rest of its row: what a reason says, the phases it can occur in, and the retry it leaves |
| StatusTheorems.BoundNamesTheHost | crates/control-plane/src/storage.rs:364-375 | in every reachable state a claim says Bound=True exactly when a host row belongs to it, and then names that host |
| StatusTheorems.AcceptedTellsTheVerdict | crates/control-plane/src/controller.rs:195-247 | in every reachable state a claim says Accepted=True exactly when it has a host; a pending retry repeats the reason and the message shown, and no generation counts as observed before the first verdict |
| StatusTheorems.ClaimRetriesComeDue | crates/control-plane/src/controller.rs:624-652 | in every reachable state only a live claim without a host has a deadline, at most a minute ahead of the clock, or at the end of the clock's range when the provider rejected it |
| StatusTheorems.HostRetriesComeDue | crates/control-plane/src/controller.rs:558-724 | in every reachable state, released or not, a host's deadline is at most a minute ahead, a second after a lost response, or at the end of the clock's range only when its claim is released and the provider rejected or disowned it |
| StatusTheorems.HostReadyTellsThePhase | crates/control-plane/src/controller.rs:459-474 | in every reachable state a host says Ready=True only in phase Ready, or in phase Deleting of a released claim; in phase Ready it says so unless a failed lookup is pending; and a failed host says why |
| StatusTheorems.ReadyIsMirrored | crates/control-plane/src/controller.rs:332-341 | over runs, storing the status of a bound claim either leaves its Ready condition saying what its host's stored row says, or, when superseded, changes nothing |
| StatusTheorems.ReleasedSaysSo | crates/control-plane/src/storage.rs:184-202 | in every reachable state a released claim's Ready is False for its deletion or an ownership conflict, only released claims say so, and the times lie in order up to the clock |
| StatusTheorems.IdleObservationChangesNothing | crates/control-plane/src/controller.rs:275-283 | over runs, an observation of a live host that contradicts no record reports no progress if and only if it changes nothing of the stored row but the time of observation |
| Limits.FailedMutationsCountOnce | crates/control-plane/src/controller.rs:294-406 | over runs, the row about to be stored after a transient create error or a failed delete says attempt 1, however many failed before |
| Limits.CreateAfterRelease | crates/control-plane/src/controller.rs:284-301 | a run whose last call is a create for a claim that is durably released |
| Catalog.BestIsLeast | crates/control-plane/src/provider/fake.rs:168-189 | a row is chosen exactly when a feasible one exists, it is feasible, and every other feasible row comes after it |
| Catalog.TiesAreBroken | crates/control-plane/src/provider/fake.rs:174-182 | among the feasible rows the choice has the least price, then memory, then storage, then vCPUs, then ID |
| Catalog.SelectionIsOptimal | crates/control-plane/src/provider/fake.rs:159-216 | for every catalogue with unique IDs and every storable requirement the choice is the unique lexicographic optimum and meets the requirement; no range error can occur, and the only error is an optimum with more vCPUs than a u32 holds |
| Catalog.SelectionSucceeds | crates/control-plane/src/provider/fake.rs:191-215 | with a catalogue whose vCPU counts fit the interface, selection never fails for a storable requirement |
| Catalog.PriceIsMonotone | crates/control-plane/src/provider/fake.rs:168-182 | a requirement that is smaller in all components is satisfiable too and costs no more |
| Catalog.SeedIsOk | crates/control-plane/src/provider/fake.rs:311-334 | the seeded catalogue meets what the model assumes of a catalogue |
| Fake.ObserveCases | crates/control-plane/src/provider/fake.rs:218-226 | an observation changes no resource; it fails exactly when its fault is left, which it uses up, and otherwise tells the truth |
| Fake.CreateCases | crates/control-plane/src/provider/fake.rs:228-289 | the answer, the effect and the fault used up, for every host and plan, by the injections left: definitive before transient, then an existing resource, then an unknown plan, then a new resource whose response is lost exactly when that fault is left |
| Fake.CreateIsIdempotent | crates/control-plane/src/provider/fake.rs:235-249 | a repeated create returns the resource of the first and makes no second one |
| Fake.DeleteCases | crates/control-plane/src/provider/fake.rs:291-308 | by the injections left: a transient error without effect, or the resource is gone and the response is lost exactly when that fault is left |
| Invariants.StepKeepsSafe | crates/control-plane/src/controller.rs:106-415 | every step, of the worker or of its surroundings and with any provider response, keeps the invariant of the tables and of the worker's stale copies |
| Guarantees.ReleaseIsFinal | crates/control-plane/src/storage.rs:247-282 | no step changes the deletion time or the Ready=False of a released claim; a pass in either loop whose snapshot does not show the release cannot touch its row at all; and only its own finalization removes it |
| Guarantees.IdentityIsFixed | crates/control-plane/src/storage.rs:173-532 | no step rewrites what identifies a claim or a host, removes a claim that is not released, or a host without its claim |
| Guarantees.FailedIsAbsorbing | crates/control-plane/src/controller.rs:132-134 | no step writes the row of a live claim's failed host or logs a call about it |
| Theorems.RunsAreGood | crates/control-plane/src/controller.rs:66-415 | every state of every run satisfies the invariant, has only guarded calls behind it and no wake forgotten |
| Theorems.DeletionsAreGuarded | crates/control-plane/src/controller.rs:366-390 | against an arbitrary provider, every delete ever issued is for a durably released claim, after Deleting and the ID are committed, on a lookup in the same step that returned that ID and contradicted no record |
| Theorems.CreationsAreGuarded | crates/control-plane/src/controller.rs:284-301 | against an arbitrary provider, every create ever issued has Provisioning and its plan committed just before, on a lookup that found nothing |
| Theorems.FinalizationsAreGuarded | crates/control-plane/src/controller.rs:348-363 | a claim is finalized only once released and, when bound, only right after an observation that its resource is absent |
| Theorems.NoPassMissesARow | crates/control-plane/src/controller.rs:131-411 | under all interleavings no `get_host`, `save_host` or `finalize_claim` of a pass misses its row: no pass ends in NotFound |
| Theorems.NoLostWakeup | crates/control-plane/src/controller.rs:66-100 | a loop parked without a permit ended its last drain idle or in an error, never at the step limit; and unless that error was the first listing of the drain, every mutation whose wake was issued was committed before a later listing |
| Theorems.WakesLostExactlyWhen | crates/control-plane/src/controller.rs:74-108 | in any reachable state some issued wake is unanswered if and only if, in a step since the last listing, a handler woke the loop or died in a crash whose mutation was committed after that listing |
| Theorems.FailedListingDropsTheWake | crates/control-plane/src/controller.rs:74-108 | a run in which a wake is lost: the permit is taken, the first listing fails, the loop parks |
| Theorems.ReleaseIsPermanent | crates/control-plane/src/storage.rs:173-240 | over whole runs, from the release on and as long as the row lives, the deletion time never changes and Ready stays False |
| Theorems.ClaimIdentityIsPermanent | crates/control-plane/src/storage.rs:102-131 | over whole runs a claim's spec, generation and creation time never change while its row lives |
| Theorems.HostIdentityIsPermanent | crates/control-plane/src/storage.rs:284-428 | over whole runs a host keeps its claim, plan and capacity for as long as the claim's row lives, and no claim ever has a second host |
| Theorems.FailedStaysFailed | crates/control-plane/src/controller.rs:132-134 | over whole runs a live claim's failed host is left alone: same row, no entry about it |
| Theorems.DeadlinesAreBounded | crates/control-plane/src/controller.rs:558-571 | in every reachable state a live claim's host has no deadline more than a minute ahead of the clock |
| Theorems.ConditionsStaySorted | crates/control-plane/src/domain.rs:167-169 | in every reachable state all stored condition lists, and those of the records the worker has listed, are sorted by type without duplicates |
| Theorems.DeletionsGoFirst | crates/control-plane/src/controller.rs:110-129 | in every reachable state, each claim the snapshot shows as deleting that the worker has passed, all of them once it handles live claims, is bound to a host that is not due |
| Theorems.WorkUsesFuel | crates/control-plane/src/controller.rs:106-165 | every step of the worker inside a pass lowers a measure fixed by the snapshot, whatever the provider answers |
| Theorems.PassesAreShort | crates/control-plane/src/controller.rs:106-165 | in every run, with anything happening in between, a pass that listed n claims lasts at most 18n + 17 steps of the worker |
| Theorems.DrainsAreBounded | crates/control-plane/src/controller.rs:82-99 | in every run, at most 64 passes follow a wait before the next one, and a drain that stops at its limit has begun exactly 64 |
| Theorems.DiscardedWorkIsListedAgain | crates/control-plane/src/controller.rs:185-191 | over runs, a status or an assignment dropped because its claim was released or removed writes nothing, and the loop does not rest again before another listing or an attempt at one |
| FakeSystem.WorldStepKeepsSound | crates/control-plane/src/controller.rs:106-415 | every step keeps both databases and the worker's copies consistent with each other |
| FakeTheorems.NoLeakedResource | crates/control-plane/src/controller.rs:294-320 | in every reachable state each provider resource has a stored host whose claim exists, with the same plan |
| FakeTheorems.ReadyNeverLies | crates/control-plane/src/controller.rs:275-277 | in every reachable state a claim stored as Ready=True is not released and is bound to a Ready host whose recorded resource exists |
| FakeTheorems.HostReadyNeverLies | crates/control-plane/src/controller.rs:459-474 | in every reachable state a live claim's host stored as Ready=True is in phase Ready and its recorded resource exists, and a host in phase Ready with no retry pending says Ready=True |
| FakeTheorems.RowsMatchProvider | crates/control-plane/src/controller.rs:284-314 | in every reachable state a Pending or Failed host has no resource, a Ready one has, and a recorded ID is the ID of the resource there is |
| FakeTheorems.HostsMeetTheirClaims | crates/control-plane/src/controller.rs:172-185 | in every reachable state a host's capacity meets its claim's spec in all three components and its plan is on offer |
| FakeTheorems.NoSecondResource | crates/control-plane/src/provider/fake.rs:235-289 | in no reachable state is the worker about to create for a host that has a resource |
| FakeTheorems.NoOwnershipConflict | crates/control-plane/src/controller.rs:257-272 | no observation in any run contradicts a recorded ID, so both conflict branches are dead with this provider |
| FakeTheorems.EarlierClaimsCannotProgress | crates/control-plane/src/controller.rs:110-162 | in every reachable state, under any interference, no claim before the one the worker is at, in listing order and in the same loop, could make the pass report progress |
| FakeTheorems.FailedStaysDue | crates/control-plane/src/controller.rs:589-599 | from the failure of a live claim's host, through the release and as long as the claim's row lives, the host's row is unchanged and due at any time until a lookup of it fails, and the deletion loop goes on to look it up |
| FakeTheorems.FailedCanBeReleased | crates/control-plane/src/controller.rs:354-363 | in every run, the deletion loop's lookup of a failed host with no observation fault left finds it absent, the next step is to finalize the claim, and that succeeds and removes the host |
| Outcomes.LostResponsesAreRetried | crates/control-plane/src/controller.rs:302-312 | over runs against any provider, the save that follows a lost response to a create or a delete stores a deadline exactly one second after the reading of the pass, the kind of the error and the phase that makes the next lookup find out |
| Outcomes.ConflictsAreSetAside | crates/control-plane/src/controller.rs:366-384 | over runs against any provider, a lookup that contradicts the recorded ID leads to no call: the host fails with both IDs on record, in the deletion loop with a deadline the clock does not pass |
| Outcomes.ObservationsAreDated | crates/control-plane/src/controller.rs:442-545 | over runs, the time of observation about to be stored is that of the step when the answer told about the host's own resource, and is kept otherwise |
| Outcomes.CreateOutcomeByFault | crates/control-plane/src/controller.rs:294-321 | over runs with the fake, a definitive fault fails the host, a transient one defers it for two seconds, a lost response for one, and otherwise the host is Ready |
| Outcomes.DeleteOutcomeByFault | crates/control-plane/src/controller.rs:390-408 | over runs with the fake, a transient fault defers the next lookup for two seconds, a lost response for one, otherwise it is due at once, and the resource is still there in the first case only |
| Outcomes.LostCreateIsFound | crates/control-plane/src/controller.rs:968-1015 | in every run a fault-free live lookup of a host whose create has an unknown outcome finds the resource, and both records become Ready |
| Outcomes.LostDeleteIsFound | crates/control-plane/src/controller.rs:929-965 | in every run a fault-free lookup of a host whose delete has an unknown outcome finds it absent, and the claim is finalized |
| FakeTheorems.ConvergenceIsBounded | crates/control-plane/src/controller.rs:106-415 | from any reachable pass boundary with N claims and F faults left, an undisturbed stretch of any length reports progress at most 2N + 2F times, whatever the clock does |
| FakeTheorems.IdleIsAFixpoint | crates/control-plane/src/controller.rs:106-165 | an undisturbed pass that lists when every retry is due either reports progress or leaves nothing to do: no deleting claim, each live claim settled, and exactly the resources of the Ready hosts |
| FakeTheorems.ConvergenceIsReachedFrom | crates/control-plane/src/controller.rs:66-165 | from any reachable state, an undisturbed stretch in which more than 2N + 2F passes list while no retry is pending, however many other passes come in between, goes through a state with nothing left to do; a pass under way at the start or at the end costs one more |
| FakeTheorems.ConvergenceIsPossibleFrom | crates/control-plane/src/controller.rs:66-165 | from every reachable state of a running process some undisturbed continuation, whose clock passes every deadline, ends with nothing left to do |
| FakeTheorems.ConvergedStaysConverged | crates/control-plane/src/controller.rs:106-165 | from a reachable converged state with no faults left, an undisturbed stretch of any length has only idle passes and is converged between them |
| Convergence.QuietStepPays | crates/control-plane/src/controller.rs:249-415 | every undisturbed step pays for the progress it reports: the ranks of the claims plus twice the faults left drop by as much |
| Convergence.ProgressIsBounded | crates/control-plane/src/controller.rs:106-415 | the bound 2N + 2F from any consistent state |
| Order.StuckReportsNothing | crates/control-plane/src/controller.rs:126-162 | a pass that reaches a live claim that cannot progress passes it over: the claim is not due, or its host is not due or failed, or a fault-free lookup is stable, or there is still no plan and it says so |
| Passes.QuietRunDoesNotAbort | crates/control-plane/src/controller.rs:84-95 | undisturbed, no pass ends in an error |
| Passes.SomePassIsIdle | crates/control-plane/src/controller.rs:82-99 | among more than 2N + 2F undisturbed passes at least one is idle |
| Passes.ConvergenceIsReached | crates/control-plane/src/controller.rs:66-165 | the same from any consistent state: the number of passes that list while no retry is pending decides, whatever the passes between them do |
| Liveness.NextWork | crates/control-plane/src/controller.rs:106-415 | from any consistent state inside a pass the worker has an undisturbed step, answered by the fake: it is never stuck |
| Stability.RestIsKept | crates/control-plane/src/controller.rs:249-329 | no undisturbed step out of a state in which nothing is owed reports progress or leaves something to do |
| Passes.ProgressFromAnywhere | crates/control-plane/src/controller.rs:106-415 | the bound from inside a pass: at most one more progress report |
| Conditions.ConditionList.Set | crates/control-plane/src/domain.rs:146-171 | updating the vector in place is the map update, and the result says whether it changed |
| Database.Storage.CreateClaim | crates/control-plane/src/storage.rs:77-131 | the transaction on the object equals its value function; an error leaves the tables as they were |
| Database.Storage.MarkClaimDeleting | crates/control-plane/src/storage.rs:173-240 | the first release sets the deletion time, Ready=False and no retry; a second changes nothing; an error leaves the tables as they were |
| Database.Storage.SaveClaimStatus | crates/control-plane/src/storage.rs:247-282 | writes the status exactly when the row exists with the same deletion time, and reports that |
| Database.Storage.EnsureHost | crates/control-plane/src/storage.rs:284-428 | both tables change or neither does, as the value function of which EnsureBinds speaks says |
| Database.Storage.SaveHost | crates/control-plane/src/storage.rs:473-515 | writes the observed columns, or reports a missing row or a resource recorded elsewhere |
| Database.Storage.FinalizeClaim | crates/control-plane/src/storage.rs:517-532 | removes the claim and its host, or reports a missing row |
| Database.Storage.ListClaims | crates/control-plane/src/storage.rs:154-171 | returns every claim with its host, in order |
| FakeDatabase.FakeProvider.ConsumeFault | crates/control-plane/src/provider/fake.rs:92-124 | uses up one injection of that kind if any is left and no other |
| FakeDatabase.FakeProvider.SelectPlan | crates/control-plane/src/provider/fake.rs:159-216 | the method gives the choice that SelectionIsOptimal proves optimal |
| FakeDatabase.FakeProvider.Observe | crates/control-plane/src/provider/fake.rs:218-226 | the next database and the response are those ObserveCases describes |
| FakeDatabase.FakeProvider.Create | crates/control-plane/src/provider/fake.rs:228-289 | the next database and the response are those CreateCases gives by the injections left |
| FakeDatabase.FakeProvider.Delete | crates/control-plane/src/provider/fake.rs:291-308 | the next database and the response are those DeleteCases describes |
| Copies.Working.ApplyObservation | crates/control-plane/src/controller.rs:442-526 | gives the transition; afterwards the same resource is a stable observation, and both records show what was observed: Ready exactly when the resource is, Accepted, and Bound to this host |
| Copies.Working.MarkProviderAbsent | crates/control-plane/src/controller.rs:528-556 | gives the transition; the host is Pending with no ID and no retry, so the next lookup can lead to a create, and both records say that there is no resource |
| Copies.Working.MarkOutcomeUnknown | crates/control-plane/src/controller.rs:558-587 | gives the transition; the host is Provisioning with one more attempt, due exactly a second later, and both records show the same unknown outcome |
| Copies.Working.MarkHostFailed | crates/control-plane/src/controller.rs:589-622 | gives the transition; the host is Failed with no deadline, so it is due at any time, and both records show the same reason |
| Copies.Working.ScheduleClaimError | crates/control-plane/src/controller.rs:624-667 | gives the transition; a definitive error parks the claim, a transient one postpones it by exactly the capped power of two, Accepted says which, and every other condition keeps |
| Copies.Working.ScheduleHostError | crates/control-plane/src/controller.rs:669-709 | gives the transition; a definitive error fails the host, a transient one keeps its phase and postpones it by exactly the capped power of two, both records say so, and the recorded ID stays |
| Copies.Working.ScheduleRetryOnly | crates/control-plane/src/controller.rs:711-724 | gives the transition; only the retry state changes: parked after a definitive error, postponed by exactly the capped power of two after a transient one |
| Controller.HostController.Await | crates/control-plane/src/rpc.rs:282-324 | whatever the others do while the controller awaits, its history stays a run and its own position does not move |
| Controller.HostController.PersistClaimStatus | crates/control-plane/src/controller.rs:332-341 | the call is the machine's step, including the wake for a superseded status |
| Controller.HostController.ReconcileUnboundClaim | crates/control-plane/src/controller.rs:167-247 | under any interference the method extends the run, and its result is how the run finished the claim |
| Controller.HostController.ReconcileHost | crates/control-plane/src/controller.rs:249-330 | under any interference at its awaits the method extends the run of the machine, and its result is how that run finished the claim |
| Controller.HostController.ReconcileDeletingClaim | crates/control-plane/src/controller.rs:343-415 | under any interference the method extends the run, and its result is how that run finished the claim |
| Controller.HostController.ReconcileOnce | crates/control-plane/src/controller.rs:106-165 | under any interference a whole pass extends the run, and its result is the end the run logged for the pass |
| Controller.HostController.Drain | crates/control-plane/src/controller.rs:82-99 | under any interference up to 64 passes extend the run; it ends parked, and with a permit when the limit was reached |
| Controller.HostController.Run | crates/control-plane/src/controller.rs:66-104 | under any interference any number of drains extend the run |
| ControllerTheorems.CallsAreGuarded | crates/control-plane/src/controller.rs:249-415 | every delete, create and finalize the running controller has made is guarded, and no pass of it missed a row |
| ControllerTheorems.DatabasesAgree | crates/control-plane/src/controller.rs:249-415 | at every moment the controller's two databases satisfy no leaked resource, Ready never lies and identity agreement |
| ControllerTheorems.RowsTell | crates/control-plane/src/controller.rs:442-724 | at every moment every row the running controller has stored tells the truth, and a claim says Bound=True exactly when it has a host, naming it |
| ControllerTheorems.ParkedHasAnswered | crates/control-plane/src/controller.rs:66-100 | a parked controller without a permit has answered every wake issued, unless the first listing of its last drain failed |

## Left out

- JSON-RPC, HTTP/2, the Unix socket, its path probing and inode guard: only that a mutating handler commits and then wakes is kept.
- Opening SQLite, migrations, WAL mode and the file ownership lock.
- The stored text forms of UUIDs, timestamps, phases and condition lists; a row that does not parse is not modelled.
- Creation times order by their stored text in the database; the model orders them as numbers.
- A commit that reports an error after it took effect: a failing storage call is rolled back.
- Configuration, tracing, error-to-RPC mapping, signal handling and graceful shutdown.
- `get_claim`, `list_hosts` and the other read-only RPCs.
- `control-cli` and `host-agent`.
- The targets described in `docs/` that the code does not implement.
- Controller.HostController.Run: the source loops until it is cancelled; the method runs any given number of drains.
- Controller.HostController.Crash: the objects can die between two calls of the outermost methods; a crash at any other point is a step of the machine only.
- Database.Storage.ListClaims: the SQL query is an ordered insertion of the rows, taken in any order.
