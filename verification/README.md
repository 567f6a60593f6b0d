# XPanel, verified

XPanel keeps what an administrator wants (users, quotas, credentials, ports) in a database and projects it onto a
remote Xray node that can restart, answer late, fail after having obeyed, or register an inbound that does not listen.
This project models that machinery in Dafny and proves what it keeps.

| file | what it is about |
|---|---|
| `Domain` | facts of an allocation, the truth table of "should listen", the quota test, the decision on a transition |
| `Xray` | the remote node: inbounds, clients, non-atomic creation, the last-client guard, every failure applied or not |
| `Synchronizer`, `Handler` | a worker's procedure for one record, as a step machine and as straight-line code over the node, proved equal |
| `Projection`, `Convergence`, `Guardian` | what an attempt can leave behind, what a confirmation means, crash convergence of rotation and creation, the never-empty inbound |
| `Outcomes`, `Rows`, `Endurance` | how an attempt can end, read off the fates of its calls; what becomes of its row; which failures are final |
| `Fencing` | leases in real time with any number of workers |
| `Intent`, `Credentials` | revisions, operations, leases, confirmations and credentials of one allocation |
| `Calendar`, `Ledger`, `Quota` | quota cycles, byte books, and the transactions in which both decide access |
| `Metering`, `Collection`, `Collector` | counters into deltas, batched reading, a whole collection round |
| `System`, `Traffic` | every interleaving of administrators, workers, reconciler, collector and scheduler over one user, and the bytes it records |
| `Joint` | those rows and the node together, over the runs of one process |
| `Cleanup`, `Correction` | what a pass over the removals takes and spares; a reconciliation and a pass on any node |
| `Capability` | generations of the node's process and the gate of user creation |
| `Store`, `Drift`, `Worker`, `Reconciler`, `Recovery`, `Backoff` | the database, the queues and the loops over many users; recovery after a restart |

State the program updates in place is kept in classes (`Xray.Adapter`, `Handler.Session`, `Store.Database`,
`Drift.Removals`, `Worker.Worker`, `Reconciler.Reconciler`, `Collector.Collector`); every method is tied to a function of
the old state, and the theorems are about those functions. The main loops carry a second contract
that says what they do to the rows and the node without those functions, in terms of its own (`Rows`, and `Corrected`,
`RoundMoves`, `TakesNext` and the like beside the code). One transaction is one atomic step. Time is whole milliseconds,
except in `Backoff`, which counts nanoseconds as the program does.

## What came out

Besides what holds everywhere, these are points at which the code does something its own texts do not say. Each is a
lemma with the exact condition or the exact consequence.

- Rotation, port change and deletion compute their revision outside the transaction, and the user row they check is not
  touched by the collector, the rollover or the reconciler. The stale ones are refused all the same, by the constraint of
  one operation per allocation and revision (`internal/persistence/sqlite/migrations/00005_port_change_reason.sql:27`);
  `Intent.RotateKeeps` and its neighbours say exactly when they commit.
- A listing lost after "inbound already exists" makes a creation fail for good: the error reported is the first one,
  which is not retryable (`Convergence.LostListingIsFatal`; it happens in `Convergence.LostListingHappens`). The
  deployed client answers so only for a tag whose port it could bind.
- The deployed client binds the port before it creates (`internal/adapter/xray/inbound.go:90-109`) and so takes the very
  inbound it is to create for an occupied port. A healthy inbound found on its own port, after a crash between creation
  and confirmation for instance, is torn down and built again by the next attempt
  (`Convergence.HealthyInboundIsTornDown`); two undisturbed attempts still suffice (`Convergence.CreateNeverSticks`).
- The guard that keeps an inbound from losing its last managed client is said to hold whatever the leases do
  (`internal/adapter/xray/handler.go:93-97`). It lists and then deletes, in two calls. An inbound stays guarded if and only
  if every deletion still finds a survivor (`Guardian.NeverEmptyExactlyWhen`), which one process guarantees
  (`Guardian.NeverEmpty`) and any processes that do not remove both managed clients at once, nor create the inbound while
  its expected client is being removed (`Guardian.OrderlyRunsNeverEmpty`). Otherwise it can be emptied: by two removals
  side by side (`Guardian.RaceEmpties`), or by one that outlives its process (`Guardian.LateRemovalEmpties`).
- A rotation stopped halfway is said never to be judged failed for good (`internal/worker/synchronizer.go:551-556`). From
  the addition of the desired credential on that is so. Before it, the listing, the transition client and the removal of
  the old credential can be refused for good (`Endurance.RotationFailsExactlyWhen`). That leaves a rotation halfway
  exactly when it had been resumed halfway, or when the refused removal was carried out all the same
  (`Outcomes.HalfwayExactlyWhen`); both happen (`Endurance.ResumedAndFrozen`, `Endurance.TwentiethAndFrozen`). A rotation
  that found the old credential in place, and is refused nothing that is carried out, is always resumed
  (`Endurance.StoppedHalfwayIsResumed`).
- An inbound that should not be there and has lost its own client is never removed: the reconciler counts it as not
  listening, and no client may be taken from it (`Correction.ForsakenInboundStays`).
- The signal "every inbound has vanished" is documented as an edge. It stays up, round after round, exactly when a wanted
  inbound was last seen listening and its template is one the round passes over
  (`Reconciler.VanishedRepeatsExactlyWhen`). For a wanted inbound that means an incompatible template, an archived one
  being refused while it has live users (`internal/persistence/sqlite/store_templates.go:201-206`), and it happens
  (`Reconciler.IncompatibleKeepsItUp`).
- The source says of a validation that the process its verdict belongs to is unambiguous
  (`internal/application/template_service.go:275`). The verdict is bound at its end to a look taken at its start, so it
  opens the gate on evidence of the process last noticed if and only if that look does not pass for a restart
  (`Capability.VerdictIsOfTheNoticedProcess`). A look of the dead process, handed in after the restart was noticed, brings
  the anchor back to it (`Capability.LateVerdictReopensTheGate`); and a look of the running process that is merely older
  than one the collector has handed in moves the generation although nothing restarted, so that every other template
  must be validated again (`Capability.LateLookPassesForARestart`).
- Bytes can be counted twice when an epoch is unknown (`Metering.UnknownEpochCountsTwice`) or the interval is below a
  second (`Metering.ShortIntervalCountsTwice`). Over a whole run, some counters make it record more than the node counted
  if and only if some round confirms a restart inside the boot in which its counter was last read
  (`Metering.RunOvercountsExactlyWhen`); a round without an epoch is harmless unless it falls between a restart and the
  first known epoch after it (`Metering.TrustedRunsNeverOvercount`).
- The key of a drift removal leaves the inbound out, so a client that intrudes into two inbounds of one template is
  removed from one at a time (`Drift.OneInboundAtATime`).
- The multiple of three in the lease bound is exact: with any shorter lease a call can still be running when another
  worker leases the record (`Fencing.ShorterLeaseIsUnsafe`).
- A jitter source that returns the smallest int64 makes the wait negative (`Backoff.NextBackoff`).

## What the theorems take for granted

- Workers have distinct owner names (the default name is the same for every process), calls end by their timeout, and
  local work and transactions take no time.
- Failures of the wire are failures of the wire: a broken call does not answer "not found" or "already exists".
- Listing and deletion of a removal are one step, except in `Guardian`, where anything may come between them. One process
  handles one record at a time (`internal/worker/synchronizer.go:172,269`), so only removals of several processes, or one
  that outlives its process, can interleave.
- Both kinds of node are covered throughout: those whose client binds the port before a creation and those that leave it
  to the node, which is also how a client that checks TCP sees an inbound on UDP alone, and how a port taken after the
  check looks. Ports are those of one listening address.
- `Joint` is about one process and a node that neither restarts nor loses this inbound by other hands. A call is applied
  before its process is gone, or never: a call of a dead process for an older operation could undo a confirmed one.
- Boot epochs of one process are at most a second apart, which `Collection.OneProcessJitters` derives from how they are
  computed. The bound on recorded bytes asks for this, and for a run that is safe in the sense above; the balance of the
  books, int64 range, quota state and intent hold for any counters, epochs and intervals.
- A drain is one pass at one moment without jitter and with nobody else writing; recovery starts from a database with
  nothing pending, templates neither archived nor incompatible, and ports that nobody else holds and, where the client
  binds them first, no two users share.

## Model

| member | source | states |
|---|---|---|
| Domain.QuotaTestIsExact | internal/domain/quota.go:23-43 | the int64 quota test with its overflow flag is the comparison up + down >= limit over unbounded integers |
| Domain.DecisionExplained | internal/domain/quota.go:109-133 | an operation is queued exactly when "should listen" changes; the reason gives the direction, and blames the quota exactly when the switch did not move |
| Xray.Adapter.Create | internal/adapter/xray/inbound.go:90-116 | creating an inbound on the kept state is the specified step: the port is probed first where the client does so, registration is not atomic, and every failure may have been applied |
| Xray.StandInIsCovered | internal/adapter/xray/fake/fake.go:162-183 | whatever failure is scripted, a creation on the stand-in node, which does not probe, is one that this model allows, so the theorems cover it |
| Xray.Adapter.Remove | internal/adapter/xray/fake/fake.go:186-217 | removing an inbound is the specified step, applied or not under a failure |
| Xray.Adapter.Add | internal/adapter/xray/fake/fake.go:233-265 | adding a client is the specified step; an existing client is refused |
| Xray.Adapter.RemoveClient | internal/adapter/xray/handler.go:98-144 | removing a client goes through the guard on the clients actually there, before any failure of the removal; listing and deletion are one step here and two in `Guardian` |
| Xray.Adapter.Users | internal/adapter/xray/fake/fake.go:219-231 | lists the clients of an inbound; for one that is not there the answer is empty or an error, and both kinds of node are covered throughout |
| Xray.Adapter.Restart | internal/adapter/xray/fake/fake.go:356-363 | a restart drops every runtime inbound |
| Synchronizer.NextDescends | internal/worker/synchronizer.go:171-549 | every step of every procedure moves strictly towards its end, whatever the node answers |
| Synchronizer.ConfirmsAsAsked | internal/worker/synchronizer.go:620-654 | under any failures, a confirmation carries the presence the operation asked for and the credential version loaded with it |
| Handler.Session.Handle | internal/worker/synchronizer.go:268-329 | the three paths of a synchronization, as sequential code over the node, end in the outcome and the node of the step machine under the same failures |
| Handler.Session.CreateDedicatedInbound | internal/worker/synchronizer.go:335-405 | the same for creation, with its reads after failure |
| Handler.Session.LookForInbound | internal/worker/synchronizer.go:360-368 | the read after an uncertain creation |
| Handler.Session.ResolveResidue | internal/worker/synchronizer.go:371-402 | the read and the compensating removal after a refused creation |
| Handler.Session.RotateWithinInbound | internal/worker/synchronizer.go:424-549 | the four-step rotation, driven by what is on the node |
| Handler.Session.PlaceTransitionClient | internal/worker/synchronizer.go:452-485 | step one: a transition client stands by, or the rotation ends early as the machine does |
| Handler.Session.RemoveOldCredential | internal/worker/synchronizer.go:486-504 | step two: the old credential goes |
| Handler.Session.AddDesiredCredential | internal/worker/synchronizer.go:505-535 | step three: the expected identity returns with the desired credential |
| Handler.Session.RemoveTransitionClient | internal/worker/synchronizer.go:536-549 | step four: confirmed only when the transition client has left |
| Handler.Session.HandleDriftRemoval | internal/worker/synchronizer.go:171-230 | the removal of an unknown inbound or client, read first when its lease was reclaimed |
| Projection.ConfirmIsTruthful | internal/worker/synchronizer.go:268-549 | whatever fails on the way, a confirmed attempt has done to its own inbound exactly what it says, and no attempt touches another inbound |
| Outcomes.RemovalRetriesExactlyWhen | internal/worker/synchronizer.go:284-306 | a removal ends in a failure that may be final exactly when the call fails and either that is certain or the inbound is not seen to be gone |
| Outcomes.CreationRetriesExactlyWhen | internal/worker/synchronizer.go:335-405 | the same for a creation: the call fails for certain or the tag is not seen, or the listing after "already exists" is lost; what an occupied port causes is only put off |
| Outcomes.PortChangeRetriesExactlyWhen | internal/worker/synchronizer.go:313-329 | the same for a port change: the removal of the old inbound fails, or the creation does |
| Outcomes.RotationRetriesExactlyWhen | internal/worker/synchronizer.go:424-559 | a rotation ends so exactly when the listing, the transition client or the removal of the old credential is refused, and leaves the clients it found but for that; whatever is refused later is put off |
| Outcomes.HalfwayExactlyWhen | internal/worker/synchronizer.go:551-559 | such an ending leaves the inbound without the expected client exactly if that client was missing already, or the refused removal of the old credential was carried out |
| Outcomes.LostRotationRetriesExactlyWhen | internal/worker/synchronizer.go:424-470 | the same for a rotation that finds no inbound and becomes a creation |
| Outcomes.PassingFailuresPass | internal/worker/synchronizer.go:668-684 | if all that fails is retryable and not internal, only a listing lost after "already exists" can be final |
| Outcomes.DriftEndsExactlyWhen | internal/worker/synchronizer.go:171-230 | when a removal of something unknown is confirmed, and when it fails and for what cause, by the node, the look of a reclaimed one, and the fates of the calls |
| Outcomes.EndingsHaveCauses | internal/worker/synchronizer.go:232-254 | work is abandoned only when a lease was lost, and given up at once only when a key did not decrypt |
| Rows.WaitIsDelay | internal/domain/sync.go:103-129 | the stored wait is the smaller of the ceiling and 2^attempts seconds, in milliseconds |
| Rows.RemovalCalmly | internal/worker/synchronizer.go:171-230 | undisturbed, a removal succeeds exactly if the target is gone already or may go, and takes exactly the target |
| Rows.RemovalSpares | internal/worker/synchronizer.go:196-201 | whatever fails, a client's removal takes no inbound, no port and no other client, and an inbound's removal takes that inbound alone |
| Endurance.NeverFailsForGood | internal/worker/synchronizer.go:668-684 | an operation whose every attempt ends in a passing failure, a deadline or an unavailable instance among them, is never failed for good: every attempt is counted, and it is due after the delay for that many |
| Endurance.PassingFailuresEndure | internal/worker/synchronizer.go:668-684 | an attempt in which only passing failures occur confirms, or is tried again, or is a creation that lost the listing |
| Endurance.RotationFailsExactlyWhen | internal/worker/synchronizer.go:551-559 | the row of a rotation is failed for good exactly when a key did not decrypt, or what was refused before the desired credential was refused for a final cause; after any other refusal it waits, one attempt more |
| Endurance.StoppedHalfwayIsResumed | internal/worker/synchronizer.go:551-559 | a rotation that found the old credential and stops with it gone, or with the new one added beside the transition client, waits for another attempt |
| Endurance.ResumedAndFrozen | internal/worker/synchronizer.go:431-435 | the instance: a rotation resumed with the transition client alone on the inbound, whose listing is refused, fails for good and leaves the user without a key |
| Endurance.TwentiethAndFrozen | internal/worker/synchronizer.go:486-504 | the instance: a removal of the old credential that is carried out and answered by the twentieth internal failure |
| Convergence.RotationConverges | internal/worker/synchronizer.go:424-549 | any attempts broken at any call, then one undisturbed run: exactly the expected client at the desired version, no transition client, tag, port, bystanders and all other inbounds unchanged |
| Convergence.BrokenAttemptsKeepTheInbound | internal/worker/synchronizer.go:424-549 | no broken attempt of any rotation of the inbound loses it, moves its port or changes a bystander |
| Convergence.CalmCreation | internal/worker/synchronizer.go:335-405 | an undisturbed creation, on either kind of node: where the client finds the port bound, the tag is cleared and the port asked for again; elsewhere it confirms exactly when the tag is free or carries the expected client, and otherwise clears the tag and asks again |
| Convergence.CreateNeverSticks | internal/worker/synchronizer.go:335-405 | from any state of the tag with the port free of others, at most two undisturbed attempts end in a confirmation with the expected client there, on either kind of node |
| Convergence.HealthyInboundIsTornDown | internal/adapter/xray/inbound.go:90-109 | with a probing client, a creation over an inbound that already carries its client is confirmed at once exactly when that inbound is on another port, and otherwise tears it down |
| Convergence.ConfirmedCreationCarries | internal/worker/synchronizer.go:357-405 | under any honest failures a confirmed creation carries the expected client if and only if the tag was free or already carried it |
| Convergence.LostListingIsFatal | internal/worker/synchronizer.go:371-402 | a creation is given up for good over an existing tag exactly when the tag was there, the port was not found bound, and the listing after "already exists" is lost |
| Convergence.LostListingHappens | internal/worker/synchronizer.go:371-402 | the instance: a creation that died before its confirmation, and a deadline on the listing of the retry |
| Guardian.TwoCallsAreOne | internal/adapter/xray/handler.go:114-144 | a listing that passes the guard and a deletion right after it are the guarded removal used everywhere else |
| Guardian.DeletionKeepsExactlyWhen | internal/adapter/xray/handler.go:138-142 | a deletion keeps an inbound guarded if and only if a survivor is there when it is carried out, whatever the guard saw |
| Guardian.NeverEmptyExactlyWhen | internal/adapter/xray/handler.go:91-144 | with listing and deletion apart, over any interleaving of calls by current and stale workers and drift removals, failures, restarts and intruders: an inbound that holds its expected or transition client keeps one of the two for as long as it exists, if and only if every deletion finds a survivor |
| Guardian.OrderlyRunsNeverEmpty | internal/adapter/xray/handler.go:91-144 | so it does if no two removals under way aim at both managed clients, and the inbound is not created while its expected client is being removed |
| Guardian.NeverEmpty | internal/worker/synchronizer.go:268-271 | so it does in every run of one process, which makes the two calls of a removal back to back |
| Guardian.RaceEmpties | internal/adapter/xray/handler.go:114-144 | the instances that fail: the old credential and the transition client removed side by side, from any inbound that holds both |
| Guardian.LateRemovalEmpties | internal/adapter/xray/handler.go:114-144 | a removal listed before the inbound was removed and created again deletes its only client |
| Cleanup.PassSpares | internal/worker/synchronizer.go:150-165 | however its calls fail, a pass over the removals takes nothing from the node but the inbounds and clients they name, and adds nothing |
| Cleanup.PassRemoves | internal/worker/synchronizer.go:150-165 | what the pass recorded as removed is gone when it ends |
| Fencing.Normalized | internal/worker/synchronizer.go:74-104 | missing durations get defaults, and the lease is at least three call timeouts |
| Fencing.CallsFitTheBudget | internal/worker/synchronizer.go:171-549 | no path spends more than three timeouts between two fences, and unfenced follow-up calls are charged |
| Fencing.NoCallOutlivesItsLease | internal/worker/synchronizer.go:66-104 | with any number of workers, crashes and clock advances, no call for a record is running when another worker can lease it |
| Fencing.ShorterLeaseIsUnsafe | internal/worker/synchronizer.go:66-90 | for every lease shorter than three timeouts there is a run, a removal taken over from a worker that died with the lease, in which a call outlives its lease |
| Intent.CreatedOk | internal/application/user_service.go:116-167 | a new user's rows satisfy the invariant: one pending key, the port asked for, one operation to create that is due |
| Intent.IntendKeepsQueue | internal/persistence/sqlite/store_sync.go:13-31 | an operation is accepted exactly at the next revision; every older one is then closed and the new one is last |
| Intent.DecideKeeps | internal/persistence/sqlite/store_traffic.go:197-227 | every decision keeps the invariant and stores the quota state it was given |
| Intent.EditUserKeeps | internal/persistence/sqlite/store_quota.go:16-52 | an edit commits exactly for the expected revision of a live user |
| Intent.RotateKeeps | internal/persistence/sqlite/store_users.go:359-407 | a rotation commits exactly when the user row is unchanged, no key is pending and the desired revision has not moved since the look; it adds one pending key above the active one |
| Intent.ChangePortKeeps | internal/persistence/sqlite/store_users.go:305-356 | a port change commits exactly under the same freshness with the port free, and moves the recorded port only |
| Intent.SoftDeleteKeeps | internal/persistence/sqlite/store_users.go:411-445 | a deletion commits exactly for a fresh look of a live user, ends every wish to listen and keeps the keys until the removal is confirmed |
| Intent.ReconcileKeeps | internal/persistence/sqlite/store_sync.go:320-342 | comparing the desired revision alone is enough: presence and version of an old look are right whenever it succeeds |
| Intent.ObserveKeeps | internal/persistence/sqlite/store_sync.go:344-354 | either half of an observation, on the allocation or on the inbound, keeps the invariant on its own, and so do both |
| Intent.ObservationShows | internal/persistence/sqlite/store_sync.go:344-354 | an observation shows what was seen of a user in step, leaves one that waits waiting, and writes nothing else |
| Intent.LeaseKeeps | internal/persistence/sqlite/store_sync.go:104-119 | an operation is leased exactly when due, and only the one of the current revision can be due |
| Intent.RenewKeeps | internal/persistence/sqlite/store_sync.go:226-237 | a renewal succeeds exactly for the holder, and keeps others off for the lease |
| Intent.FinishLeasedKeeps | internal/persistence/sqlite/store_sync.go:239-296 | rescheduling or failing by anybody but the holder changes nothing; by the holder it leaves the user out of sync with the outcome recorded |
| Intent.HolderIsCurrent | internal/persistence/sqlite/store_sync.go:170-177 | a lease is only ever held on the operation of the current revision |
| Intent.ConfirmKeeps | internal/persistence/sqlite/store_sync.go:154-224 | a confirmation succeeds exactly for the holder; then the recorded projection is what the facts want, a present one makes the desired version active and every lower one destroyed, a confirmed deletion destroys every key and releases the port |
| Intent.SnapshotsAge | internal/application/user_service.go:472-478 | a look stays truthful about its own revision however the allocation evolves |
| Credentials.ValidateCredentialSet | internal/domain/user.go:139-163 | accepts exactly the sets whose rows are well formed with at most one pending and one active |
| Credentials.CredentialsAreValid | internal/domain/user.go:139-163 | every consistent allocation passes it: a pending key has the desired version above the active one, the desired version has key material, destroyed rows have none |
| Calendar.CyclesPartitionTime | internal/domain/quota.go:47-66 | a cycle contains the instant it is computed for, and an instant gets the same cycle if and only if it lies inside |
| Calendar.CyclesAbut | internal/domain/quota.go:68-75 | consecutive cycles abut across months and years |
| Calendar.FirstCycleAgrees | internal/application/user_service.go:178-193 | a user's first cycle is the one the rollover would compute |
| Calendar.MonthStartIs | internal/domain/quota.go:47-66 | the first of every month of every year in closed form: 365 days a year, the leap days, and the days before the month |
| Calendar.FourCenturies | internal/domain/quota.go:47-66 | the calendar repeats after 146097 days |
| Calendar.KnownDates | internal/domain/quota.go:47-66 | some dates, among them the first of March of 1900, 2000, 2024 and 2100 |
| Calendar.MonthOf | internal/domain/quota.go:56-59 | the month of a day is the one that starts on or before it and ends after it |
| Ledger.SettleKeepsChain | internal/persistence/sqlite/store_quota.go:193-237 | settling ends under any reset day and zone; cycles stay contiguous, non-empty, with exactly one open, the last, ending after now |
| Ledger.SettleTwice | internal/persistence/sqlite/store_quota.go:193-237 | settling at two instants is settling once at the later |
| Ledger.SettleKeepsBook | internal/persistence/sqlite/store_quota.go:223-236 | settlement keeps the books balanced |
| Ledger.AddTrafficKeepsBook | internal/persistence/sqlite/store_traffic.go:118-134 | a commit moves total, day and open cycle alike, so that total = sum of gross = sum of days and gross = accounted + resets still hold |
| Ledger.ResetKeepsBook | internal/persistence/sqlite/store_quota.go:99-124 | a manual reset succeeds exactly on the open cycle, and what it takes out is kept in its event |
| Ledger.EverythingFits | internal/domain/traffic.go:130-137 | if the lifetime total fits an int64, every day, gross and accounted count does |
| Ledger.UpsertAdds | internal/persistence/sqlite/store_traffic.go:123-128 | inserting or adding to a day's row moves the sum of the days by exactly the delta |
| Ledger.UpsertMovesOneDay | internal/persistence/sqlite/store_traffic.go:123-128 | the row of the given day grows by the delta, or is begun with it; no other day changes |
| Quota.QuotaStateIsExact | internal/persistence/sqlite/store_traffic.go:140-147 | the stored quota state is exceeded if and only if the open cycle's accounted bytes reach the limit |
| Quota.UpdateKeeps | internal/persistence/sqlite/store_quota.go:16-52 | an edit of the policy keeps quota exactness and touches no byte |
| Quota.RolloverKeeps | internal/persistence/sqlite/store_quota.go:178-256 | a rollover never fails; it queues one restore exactly when a boundary was crossed and quota alone kept an active, enabled user out |
| Quota.RecordKeeps | internal/persistence/sqlite/store_traffic.go:111-165 | recorded bytes block exactly when they bring the usage to the limit, with one removal exactly when the user was present |
| Quota.CommitKeeps | internal/persistence/sqlite/store_traffic.go:101-155 | a commit settles first, keeps everything exact and adds its delta to the lifetime total |
| Quota.ResetKeeps | internal/persistence/sqlite/store_quota.go:90-143 | a reset empties accounted, keeps gross and total, and queues one restore exactly when it gives access back |
| Quota.RolloverTwice | internal/persistence/sqlite/store_quota.go:178-256 | two rollovers give the bounds, counters, quota state and operations of one at the later instant |
| Quota.CollectionAndRolloverCommute | internal/persistence/sqlite/store_traffic.go:101-110 | collecting then rolling over equals rolling over then collecting if and only if no bytes moved or no boundary lies between |
| Metering.ApplySample | internal/domain/traffic.go:53-101 | a sample is missing exactly when not found, and the direction epoch moves by at most one, forwards |
| Metering.OnlyTheTotalGuards | internal/application/traffic_service.go:253-267 | once the lifetime total has room the second overflow guard never fires |
| Metering.OvercountsExactlyWhen | internal/domain/traffic.go:55-101 | a single sample on exact books counts too much if and only if a restart is confirmed inside a boot that had already counted |
| Metering.RunOvercountsExactlyWhen | internal/application/traffic_service.go:226-292 | over any run, at any interval, with any epochs known or not: some counters make it record more than the node counted if and only if some round confirms a restart inside the boot its counter was last read in |
| Metering.UnconfirmedRunsNeverOvercount | internal/application/traffic_service.go:226-292 | without such a round the recorded bytes are within what the node counted up to the reading last taken in |
| Metering.TrustedRunsNeverOvercount | internal/application/traffic_service.go:226-292 | at an interval of a second or more a run is safe if no round without an epoch falls between a restart and the first known epoch after it |
| Metering.OneBootConfirmsNothing | internal/domain/traffic.go:110-120 | with an interval of a second or more, one boot's jitter never confirms a restart |
| Metering.RoundNeverOvercounts | internal/application/traffic_service.go:226-292 | complete, partial, late or missing, known epoch or not, a round that does not confirm a restart over counted bytes of its own boot keeps the recorded bytes within what the node counted; it is dropped exactly when it is older than the cursor |
| Metering.UpdateIsSound | internal/application/traffic_service.go:253-267 | whatever is read, an update takes no byte away and keeps the lifetime total within int64 |
| Metering.RecordsExactlyWhatWasObserved | internal/application/traffic_service.go:226-292 | when every round finds the counters and every boot change is confirmed, the recorded bytes are the sum over boots of the last value observed |
| Metering.UnknownEpochCountsTwice | internal/application/traffic_service.go:234-245 | a run with one unknown epoch whose recorded bytes exceed what the node counted |
| Metering.ShortIntervalCountsTwice | internal/domain/traffic.go:110-120 | the same for every interval above zero and below a second |
| Collection.ReadAll | internal/application/traffic_service.go:151-178 | every identity is asked for exactly once in batches of at most twenty, and the round stands exactly when every batch arrived and fits the first and the previous one |
| Collection.JoinsAreOfOneProcess | internal/application/traffic_service.go:184-206 | a round is merged exactly when all batches arrived and their answers are alike: epochs within a second of the first, uptimes and times never falling |
| Collection.OneProcessJitters | internal/adapter/xray/handler.go:24-31 | derived boot epochs of one process differ by at most a second and lie within a second of its start |
| Collection.RestartsAreTold | internal/application/traffic_service.go:184-206 | processes started interval plus two seconds apart are always told apart, and a merged round never mixes two started three seconds apart |
| Collector.BatchIsPointwise | internal/persistence/sqlite/store_traffic.go:91-168 | a committed batch leaves every user as its own update alone would |
| Collector.AfterMoves | internal/application/traffic_service.go:226-292 | of a user a round served: each direction's cursor becomes the counter reported for that direction, the lifetime bytes of that direction gain what the counter says, the open cycle and the row of the local day gain the same; a silent direction gains nothing, and a user not served or a late round changes nothing |
| Collector.LookMovesExactlyWhen | internal/application/traffic_service.go:346-353 | a look moves the generation exactly when its epoch is more than a second off or its uptime falls behind |
| Collector.Collector.Targets | internal/persistence/sqlite/store_traffic.go:26-35 | exactly the live users with a confirmed inbound, each once |
| Collector.Collector.BuildUpdates | internal/application/traffic_service.go:113-126 | one update for every target whose sample is not late, and nothing else |
| Collector.Collector.CommitRound | internal/application/traffic_service.go:113-134 | a committed round leaves every user as its own counters say, uplink by uplink and downlink by downlink, and reports the operations it queued |
| Collector.Collector.TakeLook | internal/application/traffic_service.go:346-353 | every look of the collector moves the capability gate as an unsuspicious one |
| Collector.Collector.NoteRestart | internal/application/traffic_service.go:208-224 | a round that straddled a restart forces the generation forward |
| Collector.Collector.CollectOnce | internal/application/traffic_service.go:67-146 | a round is committed whole or not at all; committed, the cursor moves for exactly the live users with a confirmed inbound that the round is not late for, each direction gains by its own counter, total, open cycle and local day alike, and nobody else is touched; with nobody to ask for, the node is probed and only the gate moves |
| System.StepKeeps | internal/persistence/sqlite/store_sync.go:80-354 | any one transaction, run with data read at any earlier time, keeps the whole invariant |
| System.Run | internal/persistence/sqlite/store_sync.go:80-354 | so does every run, and the intent only evolves |
| System.InitialOk | internal/application/user_service.go:116-167 | every accepted policy gives a user whose rows satisfy the invariant |
| System.EveryRunBalances | internal/persistence/sqlite/store_traffic.go:91-168 | in every reachable state, for any counters, epochs and interval: lifetime total = sum of gross = sum of days, gross = accounted + resets, every count within int64, quota state exact |
| System.EveryRunStaysWithinTheNode | internal/application/traffic_service.go:226-292 | in every state reachable without a round that confirms a restart over counted bytes of its own boot, or without one that trusts an unknown epoch too early, no byte is recorded that the node did not count |
| System.SafeRunsStayMetered | internal/application/traffic_service.go:226-292 | from any metered state, a safe run stays within what the node counted |
| System.TrustingRunsAreSafe | internal/application/traffic_service.go:234-280 | every run that trusts no unknown epoch too early is safe at an interval of a second or more |
| System.EveryRunAgreesOnIntent | internal/persistence/sqlite/store_traffic.go:197-242 | in every reachable state one operation sits at the desired revision, older ones are closed, it and the inbound row want what the facts want, and "pending" means exactly "not synced" |
| System.RevisionsFixIntent | internal/persistence/sqlite/store_sync.go:320-342 | between any two moments an unchanged desired revision means unchanged presence and version; synced revision never goes back; closed operations stay closed |
| System.SucceedsAtMostOnce | internal/persistence/sqlite/store_sync.go:154-224 | no operation succeeds twice, and only the one at the desired revision can |
| Traffic.RunSums | internal/application/traffic_service.go:226-292 | over every interleaving with stale snapshots, failed and late rounds, edits, resets and rollovers: the stored cursor and lifetime total are those of the committed rounds in order, and no snapshot had accounted for more than the total then recorded |
| Traffic.EveryUnbrokenRunIsExact | internal/application/traffic_service.go:226-292 | from a user's creation on, if the committed rounds find both counters and every boot change between two of them is confirmed, the lifetime total is exactly the sum over the observed boots of the last value observed in each |
| Joint.NextKeeps | internal/worker/synchronizer.go:268-549 | rows, node and running attempt stay consistent under every transaction of anybody, every step, failure and ending of the attempt, and the death of the worker |
| Joint.ConcludeKeeps | internal/worker/synchronizer.go:620-684 | an attempt that ends leaves the user out of step, or the inbound on the node exactly as desired at that moment, however the intent moved meanwhile |
| Joint.ElsewhereLeavesSync | internal/persistence/sqlite/store_sync.go:214-218 | nothing but a confirmation moves the synced revision |
| Joint.SyncedMeansSo | internal/persistence/sqlite/store_sync.go:154-224 | in every state one process can reach with no attempt under way, a user whose rows say nothing is pending has its inbound on the node if and only if it should listen |
| Capability.GenerationNeverGoesBack | internal/persistence/sqlite/store_templates.go:357-404 | the generation never decreases and no template is validated beyond it |
| Capability.AdvanceShutsTheGate | internal/persistence/sqlite/store_templates.go:357-404 | the generation advances exactly on a confirmed, shrinking-uptime or suspected restart, and then no template has current evidence |
| Capability.StepOpensOnlyByProof | internal/persistence/sqlite/store_templates.go:283-320 | a template without current evidence gets it exactly from a compatible validation bound to the current generation |
| Capability.GateStaysShut | internal/application/user_service.go:52-66 | until then, over any run, the gate of user creation stays shut for it |
| Capability.OneProcessMovesNothing | internal/persistence/sqlite/store_templates.go:385-395 | any number of observations leaves generation and anchor alone if and only if they all look like one process |
| Capability.VerdictIsOfTheNoticedProcess | internal/application/template_service.go:273-283 | a compatible verdict opens the gate, and does so with the generation and anchor of the process last noticed if and only if its look does not pass for a restart |
| Capability.VerdictIsWrittenExactlyWhen | internal/persistence/sqlite/store_templates.go:283-320 | a verdict is written exactly for a template that is live and unedited since it was read; it leaves evidence exactly if compatible, and touches no other template |
| Capability.TakenBackIsTakenAnew | internal/persistence/sqlite/store_templates.go:410-443 | taking back stale evidence makes the template unverified and voids every validation under way for it |
| Capability.LateLookPassesForARestart | internal/persistence/sqlite/store_templates.go:385-402 | a look within the tolerance of the anchor moves the generation exactly when its uptime is behind one already taken in, and then shuts the gate for every other template |
| Capability.LateVerdictReopensTheGate | internal/application/template_service.go:273-283 | the instance with a dead process: reported after the restart was noticed, its verdict opens the gate until the next look |
| Store.SupersedeAndInsert | internal/persistence/sqlite/store_sync.go:13-31 | the statement sequence supersedes what is older, aligns the inbound and inserts, or refuses a taken revision |
| Store.WriteDecision | internal/persistence/sqlite/store_traffic.go:197-227 | writes a decision and reports an operation exactly when it queued one |
| Store.DecideCounts | internal/persistence/sqlite/store_traffic.go:140-165 | a quota decision queues at most one operation, a block when the quota is exceeded and a restore when it is not |
| Store.SettleCycles | internal/persistence/sqlite/store_quota.go:193-237 | the loop over due boundaries computes the specified settlement and counts the boundaries crossed |
| Store.SettleAccount | internal/persistence/sqlite/store_quota.go:193-256 | settlement with its restore, inside a larger transaction |
| Store.RecordUpdate | internal/persistence/sqlite/store_traffic.go:101-155 | one update of a round, with the block and the restore it queued reported as such |
| Store.Database.CreateUser | internal/persistence/sqlite/store_users.go:16-97 | refused exactly when the port is taken on that address; otherwise one consistent user more |
| Store.Database.UpdateUser | internal/persistence/sqlite/store_quota.go:16-87 | the edit on the stored rows is the specified one |
| Store.Database.RotateCredential | internal/persistence/sqlite/store_users.go:359-407 | the rotation on the stored rows is the specified one, or nothing |
| Store.Database.ChangeInboundPort | internal/persistence/sqlite/store_users.go:305-356 | the port change on the stored rows, refused outside the pool or on a taken port; no port is ever given out twice |
| Store.Database.SoftDeleteUser | internal/persistence/sqlite/store_users.go:411-445 | the deletion on the stored rows is the specified one, or nothing |
| Store.Database.LeaseDueSync | internal/persistence/sqlite/store_sync.go:80-126 | leases the operation that has waited longest, the oldest of those, none of a template found incompatible; nothing exactly when nothing is due |
| Store.Database.RenewSyncLease | internal/persistence/sqlite/store_sync.go:226-237 | the renewal on the stored rows |
| Store.Database.ConfirmSync | internal/persistence/sqlite/store_sync.go:154-224 | the confirmation writes credentials, port, inbound, allocation and operation together, or nothing |
| Store.Database.FinishSync | internal/persistence/sqlite/store_sync.go:239-296 | rescheduling and failing on the stored rows |
| Store.Database.EnqueueReconcile | internal/persistence/sqlite/store_sync.go:320-342 | the compare-and-set on the stored rows |
| Store.Database.RecordObservation | internal/persistence/sqlite/store_sync.go:344-354 | the observation on the allocation row |
| Store.Database.ConfirmInboundPresence | internal/persistence/sqlite/store_inbounds.go:123-128 | the observation on the inbound row, unless its port was given back |
| Store.Database.RolloverCycle | internal/persistence/sqlite/store_quota.go:178-188 | the rollover on the stored rows, reporting boundaries and restores |
| Store.Database.ResetCycleTraffic | internal/persistence/sqlite/store_quota.go:90-143 | the manual reset on the stored rows, refused on a closed cycle |
| Store.Database.CommitTrafficBatch | internal/persistence/sqlite/store_traffic.go:91-168 | a round is written whole or not at all, and what it reports are the blocks and the restores it queued, each by its own count |
| Store.Database.AdvanceCapabilityGeneration | internal/persistence/sqlite/store_templates.go:357-404 | the advance on the stored row, reported exactly when it happened |
| Store.Database.InvalidateStaleCapabilityEvidence | internal/persistence/sqlite/store_templates.go:410-443 | resets and reports exactly the templates whose evidence is of another generation |
| Store.Database.CompleteTemplateValidation | internal/persistence/sqlite/store_templates.go:283-320 | commits a verdict exactly for the revision it read, with its generation only if compatible |
| Store.Database.MarkInstanceHealthy | internal/persistence/sqlite/store_templates.go:56-63 | writes the anchor only where there is none |
| Drift.EnqueueKeepsQueue | internal/persistence/sqlite/store_drift.go:19-46 | afterwards the key has an open removal; per key at most one row is open or an unreplaced failure, and replacements point forward |
| Drift.FinishKeepsQueue | internal/persistence/sqlite/store_drift.go:111-160 | finishing keeps that, and is void for anybody but the holder |
| Drift.OneInboundAtATime | internal/persistence/sqlite/store_drift.go:30-40 | a client's removal from an inbound is under way after asking if and only if no other inbound's came first under the key |
| Drift.Removals.EnqueueDriftRemoval | internal/persistence/sqlite/store_drift.go:19-46 | the insertion with its supersession, reported exactly when a row was added |
| Drift.Removals.LeaseDueDriftRemoval | internal/persistence/sqlite/store_drift.go:48-98 | leases the first due removal, saying whether it was reclaimed; nothing exactly when nothing is due |
| Drift.Removals.RenewDriftRemovalLease | internal/persistence/sqlite/store_drift.go:100-109 | renews exactly for the holder |
| Drift.Removals.FinishDriftRemoval | internal/persistence/sqlite/store_drift.go:111-160 | completes, reschedules or fails, for the holder only |
| Worker.HandledIsQuiet | internal/worker/synchronizer.go:268-329 | whatever becomes of an attempt, the invariant is kept and its operation is not due again at that moment |
| Worker.OutcomeIsRecorded | internal/worker/synchronizer.go:578-694 | what an ending writes to the row: confirmed; or waiting, one attempt more, due after the smaller of the ceiling and 2^attempts seconds; or failed for good exactly if the cause is not retryable, it is the twentieth internal failure, or a key did not decrypt |
| Worker.AttemptIsCarried | internal/worker/synchronizer.go:268-329 | what an attempt does to the row and the node, for the work the row and the user ask for |
| Worker.OwnerIs | internal/persistence/sqlite/store_drift.go:48-98 | the owner of an inbound is the one user that has it and has not given it back; without one there is none |
| Worker.UnreachableAtTheThird | internal/worker/synchronizer.go:696-717 | a compatible template becomes unreachable with the third attempt in a row that does not reach the node, and not before |
| Worker.BlameIsForTheProfile | internal/worker/synchronizer.go:696-717 | a confirmation starts that count anew; a profile the node cannot take makes the template incompatible at once; nothing else says anything about it |
| Worker.Worker.HandleSync | internal/worker/synchronizer.go:578-694 | a leased operation is carried out with the work its row and its user ask for; its row records the ending as above, no other inbound is touched, and what is confirmed is on the node |
| Worker.Worker.RetrySync | internal/worker/synchronizer.go:668-684 | a failed attempt is noted against its template and then given up or put off, as the outcome says |
| Worker.Worker.TrackDrift | internal/worker/synchronizer.go:696-717 | what a failure says about its template, judged by the template as it was loaded with the operation |
| Worker.Worker.TakeUp | internal/worker/synchronizer.go:138-148 | one turn of the loop; none exactly when nothing is due |
| Worker.Worker.DrainOperations | internal/worker/synchronizer.go:132-149 | each due operation is taken up exactly once, in an order with a node before and after each, its row records how its attempt ended, and the loop stops; only a template found incompatible on the way keeps users waiting |
| Worker.Worker.DrainRemovals | internal/worker/synchronizer.go:150-165 | exactly the due removals are taken up, once each, and the loop stops; each takes its target and nothing else, undisturbed it succeeds exactly if nothing forbids it, and its row records how it ended |
| Worker.Worker.HandleRemoval | internal/worker/synchronizer.go:171-230 | a leased removal is carried out for its own target, and its row records how it ended under the same rule of what is final |
| Worker.Worker.Drain | internal/worker/synchronizer.go:132-166 | both passes: the number of records taken up, each once, with its row and the node before and after; after the pass nothing is due in either queue |
| Reconciler.Reconciler.LooksVanished | internal/application/reconciliation_service.go:108-121 | the three counters decide exactly "some wanted, none listening, one last seen listening" |
| Reconciler.Reconciler.QueueOrphans | internal/application/reconciliation_service.go:162-179 | every panel inbound without a user has a removal under way |
| Reconciler.Reconciler.QueueIntruders | internal/application/reconciliation_service.go:199-229 | every client that does not belong has one, a transition client only once its rotation is over |
| Reconciler.ReconciledIsCorrected | internal/application/reconciliation_service.go:232-273 | a settled user gets one operation, for the wanted presence at the desired version, exactly when its client is on its inbound and should not be, or should be and is not; otherwise no operation changes; a user that waits keeps its operations |
| Reconciler.Reconciler.ReconcileUser | internal/application/reconciliation_service.go:232-273 | the user's row is observed, and corrected in either direction, exactly so |
| Reconciler.Reconciler.RequeueFailed | internal/application/reconciliation_service.go:276-318 | every unreplaced failure whose inbound is gone is asked for again |
| Reconciler.Reconciler.RefreshGate | internal/application/reconciliation_service.go:122-147 | generation first, then health, then the stale evidence |
| Reconciler.SuspicionShutsTheGate | internal/application/reconciliation_service.go:122-147 | a round that suspects a restart leaves no template with evidence of the new generation, and none admits a user |
| Reconciler.CalmRoundMovesExactlyWhen | internal/application/reconciliation_service.go:122-147 | a round without suspicion moves the generation exactly when its probe shows another process |
| Reconciler.HomeOfOrphans | internal/application/reconciliation_service.go:345-358 | orphans are kept under the first template that is not archived |
| Reconciler.QueuedMeansUnderWay | internal/application/reconciliation_service.go:162-318 | what a complete round has queued: every client that does not belong where it is, every panel inbound nobody has, every failed removal whose inbound is gone |
| Reconciler.GrownQueuesNoOther | internal/application/reconciliation_service.go:162-229 | and it newly asks for nothing else on the node: no client that belongs, no inbound of a user |
| Reconciler.Reconciler.ReconcileOnce | internal/application/reconciliation_service.go:66-326 | a complete round does all of this to every user it looks after; a lost call marks the round degraded |
| Reconciler.VanishedRepeatsExactlyWhen | internal/application/reconciliation_service.go:99-121 | the restart signal is raised again without a rebuild exactly when a wanted, last seen inbound has a template the round does not look at |
| Reconciler.IncompatibleKeepsItUp | internal/application/reconciliation_service.go:99-121 | the instance: a confirmed user whose template is found incompatible before a restart keeps it up, and its row never changes |
| Correction.RoundIsHarmless | internal/application/reconciliation_service.go:162-318 | no removal a round queues names a user's inbound or a user's own client, if none did before |
| Correction.Correct | internal/application/reconciliation_service.go:66-326 | one round and one undisturbed pass, from any node: every settled user served against the facts loses its inbound, and every one served as it should be keeps inbound, port and key |
| Correction.ForsakenInboundStays | internal/application/reconciliation_service.go:195-247 | an inbound that should not be there and has neither its own client nor that client's transition identity is neither asked to go nor can lose a client |
| Recovery.ReconciledAfterRestart | internal/application/reconciliation_service.go:181-274 | on an empty node a settled user gets one operation to create exactly if it should listen |
| Recovery.EverythingIsRebuilt | internal/worker/synchronizer.go:132-166 | the reconciliation and an undisturbed pass leave exactly the inbounds that should listen, each on its recorded port with its one client at the desired version, everything outside the namespace untouched, every user in step |
| Recovery.Recover | internal/application/reconciliation_service.go:66-326 | the same for the code itself: one round and one pass over the stored rows and the node |
| Backoff.NextBackoff | internal/domain/sync.go:103-129 | without jitter the wait is the smaller of the ceiling and 2^attempt seconds and never leaves int64; with jitter it lies between zero and that, except for one source value |
| Backoff.DefaultWaits | internal/domain/sync.go:103-129 | without a ceiling of its own the wait is 1, 2, 4, 8, 16 and then always 30 seconds |
| Backoff.WaitMillis | internal/domain/sync.go:103-129 | in stored milliseconds the wait is never zero |

## Left out

- HTTP, views, sessions, login, command line, configuration, logging, audit rows, idempotent replay of commands: no invariant of the core depends on them.
- Keys and identifiers are opaque; encryption either works or fails (`Unseal` in the step machine).
- Database errors: a failing statement is a transaction that does not happen.
- Display names, uniqueness of names and statistics identities, label and port validation, picking a free port.
- Xray.Adapter.Create: a creation on an occupied port can be lost on the way here; the stand-in node registers it whatever failure is scripted, which `Xray.StandInIsCovered` shows to be one of the cases. Listening addresses are not told apart.
- Xray.Adapter.RemoveClient: the guard's listing and the deletion are one step; `Guardian` takes them apart.
- Store.Database.CreateUser: names, statistics identities and replayed requests are not checked, only the port.
- Store.Database.ChangeInboundPort: takes the port the user already has, as the store does; the service refuses it before the store is reached.
- Worker.Worker.TrackDrift: health texts of the instance and the callback for a recovered template are not written.
- Reconciler.Reconciler.RefreshGate: the validations it asks for are separate runs of `Capability`, not part of the round.
- Port changes take the pool and the occupied ports as they are at the transaction; the service's earlier check only chooses the message.
- The remote port: an operation superseded before it ran may leave the node on the old port; a confirmation says nothing about it.
- The key version on the node: it cannot be read back, so "already carries the client" is about the identity alone.
- Zones are fixed offsets; local midnights that do not exist are not modelled.
- Continuity events, `missing_since`, `last_success_at`, `opened_at`, `closed_at`, local date strings and health texts: written, never decided on.
- The collector is one at a time, as the program runs it; two collectors over one cursor are not modelled.
- The edit guard of templates, and the reads of a template outside the creating transaction.
- `Store.Enqueue` and the thin aliases of the queue methods; the in-memory `Supersede` of an operation, whose rule is that of `SupersedeOlder`.
- Backoff.NextBackoff: a ceiling equal to the largest int64 together with jitter overflows the bound passed to the source; that one case is excluded.
