# A verified model of the migration control plane, its authority and its cloud runtime

This Dafny 4.11 project models the parts of the repository that behave like
protocols, and proves what they promise over every run. `dafny verify
dfyconfig.toml` checks all of it.

The style is the same throughout. Each component has functions over values that
say what one operation does to the state, branch by branch; classes and methods
with the source's loops and in-place updates, each proved to do exactly that;
an invariant; and theorems over all histories of operations, with arbitrary
callers, clocks, drawn ids and failures.

## Components

- **PostgreSQL workflow authority** (`Authority*.dfy`). Fourteen tables as maps, one
  atomic function per transaction. `AuthorityGate` holds runs, approvals, nonces,
  journal, checkpoints, releases, launches and reconciliations; `AuthorityWork`
  tasks, attempts and effects; `AuthorityLog` the event log and its outbox;
  `Authority` puts them together with idempotency. The `*Proofs` modules carry the
  invariants, `AuthorityHistory` lifts them to histories, `AuthorityTheorems`,
  `AuthorityFences`, `AuthorityRetries` and `AuthorityLedger` state the results;
  `AuthorityAdmission` and `AuthorityTaskAdmission` say exactly which commands a
  reachable database admits, `AuthorityOutcomes` and `AuthorityDeliveries` what
  becomes of a task and of an event afterwards, `AuthorityFacts` where every row comes
  from, `AuthorityTestimony` that every event restates one, and `AuthorityReplies` what
  callers are told;
  `AuthorityOutlook`, `AuthorityPending` and `AuthorityProspects` say which runs can
  still be approved and succeed; `AuthorityExample` is a complete run with six that go
  astray, and
  `AuthorityRepository` is the class whose twenty methods are proved equal to it.
  Keys, start values and uniqueness constraints are those of the migration
  `studio-backend/migrations/m3_001_cloud_sql_authority.sql`.
- **Durable control plane** (`ControlPlane*.dfy`). The snapshot, the six mutating
  operations, the validators, the commit, the replay of the log, paging by cursor,
  and the class `Store`; `ControlPlaneAdmission` gives the exact condition of every
  command and `ControlPlaneCommands` what it does, field by field. Times are nanoseconds since the year 0, as parsed; what is
  stamped is printed to the millisecond, and unreadable from the year 10000 on.
- **Hosted store** (`Hosted*.dfy`). Immutable chunks and a compare-and-swap head, then
  any number of processes sharing one object, their reads and writes interleaved step
  by step; `HostedSerial` shows that what they make of it is one serial history.
- **Trusted cloud execution** (`Cloud*.dfy`). Reconciliation from aggregates, the
  executor as a sequence of port calls that may fail or stop anywhere, the bundle
  producer, the Dataflow template, their agreement down to decimal texts, table
  specifications and job names, and the query over the destination table.
- **Two-stage approvals** (`Approval*.dfy`). The single-use repository, the two-pass
  evaluator, the length-prefixed framing under every digest, and, in
  `ApprovalHistory`, where every request and record comes from.
- **Change-data-capture compilers** (`Cartridge*.dfy`). JDE, EBS and AX, each with its
  own meaning of a delta; the `*Rules` modules say which packets each accepts and what
  every key is left with, from the rows and events alone, and `CartridgeEbsFields` how
  flexfields resolve.
- **Sliding-window rate limiter** (`RateLimiter.dfy`).

## Where the code is sharper than its description

- `cpValidateSnapshot` is neither inductive nor strong enough for the approval gate.
  `CheckIsNotInductive`, `CheckAllowsUngated` and `CheckAllowsTwins` give snapshots.
- Revalidation on commit can refuse what a command correctly built: after a loaded
  stamp with a fraction of a millisecond (`FractionRefused`), at the end of the year
  9999 (`YearRefused`), and before a run's creation. `CommitAcceptsIff` is the exact
  condition from any accepted snapshot, `BuildKeeps` the one that is left from a
  reachable state, and `RevalidationNeverRejects` shows that a store that starts
  empty is never refused while its clock stays three hours short of that year.
- The comment on `commit` says that a failed write leaves memory as it was
  (`studio-backend/control_plane.go:1087-1088`). When only the directory sync fails,
  the new snapshot is visible and an error is still returned. The model follows the
  code: both memory and file then hold the new snapshot.
- A retried launch is answered with its stored row only while the run is approved or
  running (`LaunchRetryIff`); in a later state the retry is a conflict.
- An approved, live run can be past saving: it was moved on to `running` before its
  release existed, or sealed on an approval of another subject than its plan, or its
  one launch or its one reconciliation was recorded as failed. Each is reachable
  (`StrandedIsReachable`, `OtherSubjectIsReachable`, `FailedLaunchIsReachable`,
  `FailedReconciliationIsReachable`), and there is no other way
  (`SuccessPossibleIff`).
- Before its approval a run can be past saving too: a checkpoint stored before the
  simulation decision can never be sealed (`EarlyCheckpointIsReachable`), decisions
  that name another checkpoint than the stored one, or a digest another run holds for
  good, cannot be sealed either, and a simulation decision on the plan itself leaves no
  subject for a production decision that could be released
  (`PlanSimulatedIsReachable`). `ApprovalPossibleIff` and `AnySuccessIff` are the exact
  conditions.
- A bundle of no records never reconciles, because the digest sets of no rows
  are empty (`NoRecordsNeverReconcile`). A clean execution succeeds only if every
  source has a record.
- For AX, "final = snapshot + inserted - deleted" is not a law. `CountsReconcile` gives
  the exact difference from what the delta does to each identity; `SimpleCountFails`
  and `SimpleCountExceeds` are families on either side of it, `FailuresCancel` one
  where two faults make the count right. All pass the packet's checks that come before
  the counts (`StartsAfter`).
- A decimal of more than 28 significant digits is rounded by `normalize` and accepted.
  `ValueKeptIff` says exactly which decimals keep their value.
- The four-byte length of the framing wraps at 2^32 bytes (`WrappedLengthCollides`,
  `WrappedFieldExists`). No valid request reaches it, because every field pattern
  bounds its length (`studio-backend/m3_approval.go:151-158`): the hypothesis `Fit` of
  `RequestDigestBinds` follows from validity.
- For EBS the seen-version check is implied by the timestamp check
  (`SeenVersionsAreRedundant`).

## Assumptions

- Identifiers and digests are opaque. `Common.Id` keeps of their patterns only that
  the empty string is refused; where patterns matter (field names, table
  specifications, job names, run ids, digests, tokens) they are spelled out over
  strings.
- Identifiers never run out, though the patterns bound their lengths, and any digest
  can be that of a body at hand. The "if" halves of `SuccessPossibleIff`,
  `ApprovalPossibleIff` and `AnySuccessIff`, which build continuations, rest on both.
- Compression, hashing, JSON, `isoformat` and base64 are parameters. What is needed
  of them is a named predicate: `Faithful` and `Trusted` (decompressing undoes
  compressing, parsing undoes printing), `Lawful` (reading undoes printing, an aware
  timestamp is printed with a numeric offset), and the one-to-one number and time
  formats of `RequestDigestBinds`. No theorem assumes that hashing has no collisions:
  where digests bind, a violation is shown to be a collision.
- Clocks are arbitrary inputs unless a theorem says otherwise; the rate limiter's
  clock does not run backwards. Random ids are inputs, refused when they are taken.
- Query results that the database chooses (expired leases, claimable events) are
  inputs that satisfy the query's own condition (`Selection`, `Claimable`).
- The rows that an execution observes in a destination table are those of one run and
  source (`RowsShown`), as the query over the whole table selects them
  (`CloudWarehouse.Select`).
- The lineage columns of a destination table are required, as its schema declares
  (`RequiredColumns`).

## Model

| member | source | states |
|---|---|---|
| `AuthorityTheorems.SuccessNeedsTheWholeChain` | studio-backend/m3_persistence.go:471-1543 | After any history of commands by any callers from the empty database, a succeeded run has two linked approving records with distinct subjects, journalled decisions, a sealed checkpoint with unchanged model calls, a release of that approval over its plan, a launched result and a verified reconciliation of it |
| `AuthorityTheorems.ApprovedIffSealed` | studio-backend/m3_persistence.go:1077-1266 | In every reachable database a run carries an approval id if and only if its two-stage chain is complete and its checkpoint is sealed with the model calls counted at the seal |
| `AuthorityTheorems.NoncesAreSingleUse` | studio-backend/m3_persistence.go:578-782 | In every reachable database each approval consumed one registered nonce with exactly its own binding, and no nonce served two approvals |
| `AuthorityTheorems.TerminalRunsStand` | studio-backend/m3_persistence.go:231-260 | From any database that meets the invariant, a terminal run row never changes again under any history, and no attempt is ever added to it |
| `AuthorityTheorems.RunningIffOneAttempt` | studio-backend/m3_persistence.go:1622-1990 | In every reachable database a task is running if and only if it has an attempt in progress; there is never a second one, and its generation is the task's current one |
| `AuthorityTheorems.AttemptsNumbered` | studio-backend/m3_persistence.go:1622-1742 | In every reachable database the attempts of a task are numbered 1..attempts_started, each number exactly once, with 0 <= retry_count <= attempts_started <= max_attempts |
| `AuthorityTheorems.SupersededLeaseIsDead` | studio-backend/m3_persistence.go:1744-1895 | Once a later claim of the task was granted, whatever happened between and after, a command presenting the earlier lease (heartbeat, completion or effect reservation) is refused as stale and changes nothing |
| `AuthorityTheorems.PublishedInOrder` | studio-backend/m3_persistence.go:2265-2287 | Over any history the successful marks of a run publish its events one by one in log order: none skipped, none repeated, and the published events stay a prefix |
| `AuthorityTheorems.StrandedNeverSucceeds` | studio-backend/m3_persistence.go:241-247 | From any database that meets the invariant, a run that left approved for running before its release was created can never succeed: no later history gives it a release (an unreleased case of DoomedNeverSucceeds) |
| `AuthorityOutlook.SuccessPossibleIff` | studio-backend/m3_persistence.go:471-1543 | In every reachable database, a run with an approval has some continuation to success if and only if it has succeeded, or it is live and either its release has neither a failed launch nor a failed reconciliation, or it has no release, is still approved, and its production approval names the plan |
| `AuthorityOutlook.DoomedNeverSucceeds` | studio-backend/m3_persistence.go:471-1543 | Without that condition no history succeeds: a wrong subject, a lost release, a failed launch and a failed reconciliation can never be made good |
| `AuthorityOutlook.HopefulCanSucceed` | studio-backend/m3_persistence.go:1268-1543 | With it a continuation is built: return to running if paused, release, launch and reconcile what is missing under unused identifiers, and move to succeeded |
| `AuthorityOutlook.HistoryOrderly` | studio-backend/m3_persistence.go:1390-1543 | Under any history a release is launched at most once and every launch has an id, so a failed launch is final |
| `AuthorityProspects.AnySuccessIff` | studio-backend/m3_persistence.go:421-1543 | For every run key in every reachable database: some continuation succeeds if and only if the key is well formed and its run, if there is one, has the outlook above once approved, or before that is approvable while its production decision names the plan, or is open and the simulation decision names another subject |
| `AuthorityProspects.ApprovalPossibleIff` | studio-backend/m3_persistence.go:578-1266 | In every reachable database a run without approval has a continuation that approves it if and only if it is live and has neither decision nor checkpoint; or has a simulation-approved checkpoint that its decisions name; or its decisions name a digest that no other run of the tenant holds, or only one that is itself ready for its seal, which gives the digest up |
| `AuthorityProspects.UnpromisingNeverSucceeds` | studio-backend/m3_persistence.go:421-1543 | Without that condition no history succeeds |
| `AuthorityProspects.HistoryNeat` | studio-backend/m3_persistence.go:578-1266 | Any history keeps: journal entries restate the decision their run names, checkpoints of unapproved runs carry their plan and are not sealed, checkpoint digests differ within a tenant, decisions are complete |
| `AuthorityPending.UnapprovableStays` | studio-backend/m3_persistence.go:578-1266 | No lifecycle command of any run gives a run that cannot be approved an approval or makes it approvable |
| `AuthorityPending.ObtainableBefore` | studio-backend/m3_persistence.go:925-1266 | A checkpoint digest that a run can obtain after any command of any run it could obtain before: a holder that is not ready for its seal holds it for good |
| `AuthorityTheorems.LaunchRetryIff` | studio-backend/m3_persistence.go:1366-1440 | Recording a launch again with its original facts answers with the stored row if and only if the run is by then approved or running; otherwise it is refused as a conflict; either way nothing changes |
| `AuthorityFences.OneWinnerPerRevision` | studio-backend/m3_persistence.go:471-1349 | Of any two lifecycle commands decided against the same revision of a run only one is ever carried out, whatever happens between them; the other is refused or answered from an earlier result and changes nothing |
| `AuthorityFences.LeaseExcludesOthers` | studio-backend/m3_persistence.go:1622-1740 | Until a granted lease expires, as long as its holder neither renews nor completes it, whatever all other commands do, its fence still holds and every other claim of the task is refused without effect |
| `AuthorityFences.ClaimGrantedIff` | studio-backend/m3_persistence.go:1622-1742 | In every sound state a claim is granted if and only if the run is live, the attempt id is new, an attempt is left and the task is ready, due for retry, or its lease has expired |
| `AuthorityFences.HeartbeatIff` | studio-backend/m3_persistence.go:1744-1791 | In every sound state a heartbeat succeeds if and only if it presents the whole lease in force before it expires: the attempt row never refuses what the task row admits |
| `AuthorityAdmission.AdmittedIff` | studio-backend/m3_persistence.go:421-1543 | In every reachable database a lifecycle command takes effect if and only if its rows admit it, and is answered from them if and only if they hold its facts already: for each of the ten commands the condition is written out on the rows, with the checks that can no longer fail there left away |
| `AuthorityTaskAdmission.TaskAdmittedIff` | studio-backend/m3_persistence.go:1550-2100 | In every reachable database a task or effect command is carried out if and only if the rows admit it: for each of the seven commands the condition is written out on the rows, and neither an attempt row nor a recovery's fenced update ever stands in the way |
| `AuthorityOutcomes.FinishedWorkNeverRunsAgain` | studio-backend/m3_persistence.go:1801-1897 | After an accepted successful completion no later history adds an attempt to the task and no claim of it is ever granted; its attempt row keeps the success, the output and the moment for good |
| `AuthorityOutcomes.FailedWorkRetriesFrom` | studio-backend/m3_persistence.go:1801-1897 | After an accepted failed completion with an attempt left, as long as nobody claims it, a claim of the task under a new attempt id in a live run is granted if and only if the moment of completion plus the delay in whole seconds has come; the attempt row keeps failure and code for good |
| `AuthorityOutcomes.ExhaustedWorkNeverRunsAgain` | studio-backend/m3_persistence.go:1801-1897 | After the failed completion of the last attempt no later history adds an attempt to the task and no claim of it is ever granted |
| `AuthorityOutcomes.RecoveredWorkRetriesOrEnds` | studio-backend/m3_persistence.go:1901-1990 | A task that a recovery took may be claimed again exactly from the recovery's delay on if an attempt is left, and never if none is; its attempt row says timed out, with the code and moment, for good |
| `AuthorityOutcomes.GrantedUntil` | studio-backend/m3_persistence.go:1622-1742 | A granted lease is the one asked for, and while its holder neither renews nor completes it, another claim under a new attempt id in a live run is granted if and only if the lease has run out, if an attempt is left |
| `AuthorityOutcomes.HeartbeatExtends` | studio-backend/m3_persistence.go:1744-1791 | An accepted heartbeat puts the same lease in force until its own moment plus the extension in whole seconds, and stamps the attempt with that moment |
| `AuthorityOutcomes.LastLeaseLapses` | studio-backend/m3_persistence.go:1622-1742 | A claim of a task whose last attempt has expired ends the task for good, times the attempt out, and is told that no attempt is left |
| `AuthorityFacts.EveryFactWasStated` | studio-backend/m3_persistence.go:421-2100 | Whatever a row of a reachable database says (challenges, decisions, journal entries, checkpoints, releases, launches, reconciliations, plans, states, tasks, attempts, effects) a command of the history stated word for word, and the fact entered the tables with that command |
| `AuthorityFacts.DecisionSpendsChallenge` | studio-backend/m3_persistence.go:578-713 | Every decision on record spent a challenge that an earlier command had registered for that run with that request and every bound digest, and was recorded before the challenge expired |
| `AuthorityTestimony.EveryEventIsTrue` | studio-backend/m3_persistence.go:331-373 | Every event in the log of a reachable database restates rows that are still there: the ids, codes and digests it carries are those of the decision, seal, release, launch, reconciliation, task, attempt or effect that it reports |
| `AuthorityTestimony.EveryEventTellsItsMoment` | studio-backend/m3_persistence.go:331-373 | Every event was written by one command of the history at that command's moment, with the revision and state that its run then had |
| `AuthorityReplies.AcceptedTells` | studio-backend/m3_persistence.go:262-324 | A lifecycle command that is accepted anew is answered with its run's revision and state as they now are, the sequence of the first event it wrote, and the approval and release that it is about |
| `AuthorityReplies.OutboxAdmittedIff` | studio-backend/m3_persistence.go:2169-2315 | An outbox command is carried out if and only if it is well formed and, for a report, presents owner, token and generation of the delivery in force before it runs out; a refused one changes nothing |
| `AuthorityExample.SuccessIsReachable` | studio-backend/m3_persistence.go:421-1543 | Some history of fourteen commands takes a run through both approvals, the seal, a release, a launch and a verified reconciliation to success, so the conditions a success requires can be met together |
| `AuthorityExample.StrandedIsReachable` | studio-backend/m3_persistence.go:241-247 | Some history from the empty database leaves a live, approved run that was moved on before its release and that no continuation takes to success |
| `AuthorityExample.OtherSubjectIsReachable` | studio-backend/m3_persistence.go:1077-1266 | Some history seals a run on a production approval of a subject other than its plan: the seal does not compare them, the release does, and no continuation succeeds |
| `AuthorityExample.FailedLaunchIsReachable` | studio-backend/m3_persistence.go:1366-1440 | Some history records the one launch of a release as failed, after which no continuation succeeds although the run stays live |
| `AuthorityExample.FailedReconciliationIsReachable` | studio-backend/m3_persistence.go:1457-1543 | Some history records the one reconciliation of a release as failed, with the same consequence |
| `AuthorityExample.EarlyCheckpointIsReachable` | studio-backend/m3_persistence.go:879-940 | Some history stores a checkpoint before the simulation decision, after which no continuation approves the live, waiting run |
| `AuthorityExample.PlanSimulatedIsReachable` | studio-backend/m3_persistence.go:578-713 | Some history decides the simulation on the plan itself, after which a continuation approves the run but none lets it succeed |
| `AuthorityHistory.ApplyKeeps` | studio-backend/m3_persistence.go:262-2315 | Every command keeps the invariant of all fourteen tables and only moves each row forward |
| `AuthorityHistory.HistoryKeeps` | studio-backend/m3_persistence.go:262-2315 | Every history keeps the invariant; decisions, sealed checkpoints, releases, launches, ended attempts, committed effects, stored results, events and published marks are never rewritten |
| `AuthorityHistory.EmptyHolds` | studio-backend/migrations/m3_001_cloud_sql_authority.sql:6-32 | The empty tables meet the invariant every history starts from |
| `AuthorityGateProofs.DecideKeeps` | studio-backend/m3_persistence.go:471-1543 | Each lifecycle transaction keeps the gate invariant and moves its run by one step: at most one revision up, plan and approval ids fixed once set, terminal rows untouched, the approval gate never re-entered with an approval on record, only allowed transitions; no other run changes |
| `AuthorityWorkProofs.DecideKeeps` | studio-backend/m3_persistence.go:1550-2100 | Each task or effect transaction keeps the lease invariant, and generations and starts rise together, ended attempts and committed effects stay as they are |
| `AuthorityWorkProofs.StolenKeeps` | studio-backend/m3_persistence.go:1622-1742 | A claim of a task whose lease expired ends the old attempt and then starts the new one (or buries the task at its attempt limit), keeping the lease invariant |
| `AuthorityWorkProofs.OldLeaseRefused` | studio-backend/m3_persistence.go:1744-1895 | A lease of an earlier generation can neither extend, complete nor reserve |
| `AuthorityWorkProofs.GrantRaises` | studio-backend/m3_persistence.go:1622-1742 | A granted lease carries a generation exactly one above the task's last, is the task's current one, holds at once, and is never granted in an ended run |
| `AuthorityWorkProofs.OnlyClaimsStart` | studio-backend/m3_persistence.go:1622-1742 | Only a claim in a live run adds an attempt, and only to that run |
| `AuthorityWorkProofs.RecoveryNeverStale` | studio-backend/m3_persistence.go:1901-1990 | Whichever expired tasks the recovery query returns, its loop never meets a row that fails the fenced update |
| `AuthorityLogProofs.OutboxKeeps` | studio-backend/m3_persistence.go:2169-2315 | Every outbox statement keeps each run's log gapless and ordered with at most one event in flight, keeps attempts within the maximum, and only moves deliveries forward |
| `AuthorityLogProofs.FrontierSplits` | studio-backend/m3_persistence.go:331-373 | A run's log is a published prefix, then at most one event a relay has touched, then untouched pending events |
| `AuthorityLogProofs.MarkAdvances` | studio-backend/m3_persistence.go:2265-2287 | A successful mark publishes exactly the next event of its run |
| `AuthorityLogProofs.OnlyMarksPublish` | studio-backend/m3_persistence.go:2169-2315 | Whatever outbox statement made an event published was a mark carrying that event's current delivery |
| `AuthorityLogProofs.UndeliverableBlocks` | studio-backend/m3_persistence.go:2169-2263 | Behind a dead-lettered event no event of that run is ever touched again |
| `AuthorityLogProofs.OldParcelRefused` | studio-backend/m3_persistence.go:2265-2315 | A delivery of an earlier generation can neither publish nor fail its event |
| `AuthorityLogProofs.ClaimHandsOut` | studio-backend/m3_persistence.go:2169-2263 | Each claimed delivery carries its event's generation raised by one, may act at once, and all earlier events of its run are published |
| `AuthorityDeliveries.HandedOutUntil` | studio-backend/m3_persistence.go:2169-2263 | An event that is handed out counts one more delivery and is fenced by its relay until the duration asked for has passed; from then on, if the delivery was not the last and the relay did not report, a claim that picks it hands it out, and not before |
| `AuthorityDeliveries.DeliveryExcludesOthers` | studio-backend/m3_persistence.go:2169-2315 | Until a delivery runs out, as long as its relay does not report, whatever all other commands do, its fence holds and no claim hands the event out again |
| `AuthorityDeliveries.FailedReturnsOrEnds` | studio-backend/m3_persistence.go:2289-2315 | A failed delivery is kept with its code; the event may be handed out again exactly from the delay on, or never if that was the tenth delivery |
| `AuthorityDeliveries.MarkedNeverAgain` | studio-backend/m3_persistence.go:2265-2287 | A marked event is published, its error is cleared, and it is never handed out again |
| `AuthorityDeliveries.LastDeliveryLapses` | studio-backend/m3_persistence.go:2169-2263 | The first claim after the last delivery of an event ran out gives the event up for good, under its last failure code or as expired |
| `AuthorityRetries.SuccessSettles` | studio-backend/m3_persistence.go:262-324 | A command that succeeded leaves its effect on record |
| `AuthorityRetries.SettledStays` | studio-backend/m3_persistence.go:262-324 | What is on record stays on record in every later database |
| `AuthorityRetries.SettledRepeats` | studio-backend/m3_persistence.go:262-324 | A command whose effect is on record changes nothing when it is issued again |
| `AuthorityRetries.RetriesChangeNothing` | studio-backend/m3_persistence.go:262-324 | Inserting any number of retries of already succeeded commands anywhere into a history leaves every table equal |
| `AuthorityRetries.StoredResultReturned` | studio-backend/m3_persistence.go:262-310 | A repeated idempotency key returns the result of its first use, however long ago, if request and plan digests match; with any other it is refused; the database does not change in either case |
| `AuthorityLedger.ReachableAccounted` | studio-backend/m3_persistence.go:331-373 | In every database reachable from the empty one a run's revision, number of attempts, reserved effects and committed effects equal the numbers of events of those kinds in its log, and its last event carries its current revision and state |
| `AuthorityLedger.LogAccountsForTables` | studio-backend/m3_persistence.go:331-373 | Any history keeps that account of all runs |
| `AuthorityLedger.CommitAccounts` | studio-backend/m3_persistence.go:331-373 | Appending the events of one transaction to a run adds exactly their tally to its log and touches no other run |
| `AuthorityRepository.Repository.CreateRun` | studio-backend/m3_persistence.go:421-461 | Creates the run row at revision 1 with its first event, or replays or refuses: reply and all tables afterwards are exactly those of the transition relation the theorems speak of, and the invariant is kept |
| `AuthorityRepository.Repository.TransitionRun` | studio-backend/m3_persistence.go:471-564 | Fences by revision, moves along allowed edges and refuses success without a verified release: reply and all tables afterwards are exactly those of the transition relation the theorems speak of, and the invariant is kept |
| `AuthorityRepository.Repository.RecordApproval` | studio-backend/m3_persistence.go:578-713 | Consumes the nonce, links the second stage to the first and records the decision, rolling back on a constraint: reply and all tables afterwards are exactly those of the transition relation the theorems speak of, and the invariant is kept |
| `AuthorityRepository.Repository.RegisterApprovalNonce` | studio-backend/m3_persistence.go:727-779 | Registers a challenge while the run awaits approval: reply and all tables afterwards are exactly those of the transition relation the theorems speak of, and the invariant is kept |
| `AuthorityRepository.Repository.CreateWorkflowCheckpoint` | studio-backend/m3_persistence.go:879-940 | Stores or replays the pre-seal checkpoint: reply and all tables afterwards are exactly those of the transition relation the theorems speak of, and the invariant is kept |
| `AuthorityRepository.Repository.AppendSimulationApprovalJournal` | studio-backend/m3_persistence.go:944-1008 | Stores or replays the simulation decision: reply and all tables afterwards are exactly those of the transition relation the theorems speak of, and the invariant is kept |
| `AuthorityRepository.Repository.CommitProductionApprovalSeal` | studio-backend/m3_persistence.go:1077-1266 | Checks both stages, journal and checkpoint, then seals and approves in one step: reply and all tables afterwards are exactly those of the transition relation the theorems speak of, and the invariant is kept |
| `AuthorityRepository.Repository.CreateRelease` | studio-backend/m3_persistence.go:1275-1349 | Releases the approved plan: reply and all tables afterwards are exactly those of the transition relation the theorems speak of, and the invariant is kept |
| `AuthorityRepository.Repository.RecordLaunchResult` | studio-backend/m3_persistence.go:1366-1440 | Stores a launch of the current release or answers a retry: reply and all tables afterwards are exactly those of the transition relation the theorems speak of, and the invariant is kept |
| `AuthorityRepository.Repository.RecordReconciliation` | studio-backend/m3_persistence.go:1457-1543 | Stores a reconciliation of a launched release or answers a retry: reply and all tables afterwards are exactly those of the transition relation the theorems speak of, and the invariant is kept |
| `AuthorityRepository.Repository.EnqueueTask` | studio-backend/m3_persistence.go:1550-1586 | Adds a ready task in a live run: reply and all tables afterwards are exactly those of the transition relation the theorems speak of, and the invariant is kept |
| `AuthorityRepository.Repository.ClaimTask` | studio-backend/m3_persistence.go:1622-1742 | Takes a free or expired task, ending the old attempt and starting a fenced new one: reply and all tables afterwards are exactly those of the transition relation the theorems speak of, and the invariant is kept |
| `AuthorityRepository.Repository.HeartbeatLease` | studio-backend/m3_persistence.go:1744-1791 | Extends a lease that is still held: reply and all tables afterwards are exactly those of the transition relation the theorems speak of, and the invariant is kept |
| `AuthorityRepository.Repository.CompleteTask` | studio-backend/m3_persistence.go:1801-1897 | Ends the attempt and finishes, retries or buries its task: reply and all tables afterwards are exactly those of the transition relation the theorems speak of, and the invariant is kept |
| `AuthorityRepository.Repository.RecoverExpiredLeases` | studio-backend/m3_persistence.go:1901-1990 | Ends each expired attempt and frees or buries its task, looping over the rows the query returned: reply and all tables afterwards are exactly those of the transition relation the theorems speak of, and the invariant is kept |
| `AuthorityRepository.Repository.ReserveEffect` | studio-backend/m3_persistence.go:2000-2059 | Reserves an effect key once under a held lease: reply and all tables afterwards are exactly those of the transition relation the theorems speak of, and the invariant is kept |
| `AuthorityRepository.Repository.CommitEffect` | studio-backend/m3_persistence.go:2061-2100 | Fixes an effect's result once: reply and all tables afterwards are exactly those of the transition relation the theorems speak of, and the invariant is kept |
| `AuthorityRepository.Repository.ClaimOutbox` | studio-backend/m3_persistence.go:2169-2263 | Lapses expired deliveries and hands out the first unpublished events: reply and all tables afterwards are exactly those of the transition relation the theorems speak of, and the invariant is kept |
| `AuthorityRepository.Repository.MarkOutboxPublished` | studio-backend/m3_persistence.go:2265-2287 | Publishes under the current delivery: reply and all tables afterwards are exactly those of the transition relation the theorems speak of, and the invariant is kept |
| `AuthorityRepository.Repository.FailOutbox` | studio-backend/m3_persistence.go:2289-2315 | Retries or dead-letters under the current delivery: reply and all tables afterwards are exactly those of the transition relation the theorems speak of, and the invariant is kept |
| `AuthorityRepository.Repository.AppendEvents` | studio-backend/m3_persistence.go:331-373 | The loop that appends a transaction's events gives each the next sequence number of its run with the run's revision and state |
| `AuthorityRepository.Repository.BeginIdempotent` | studio-backend/m3_persistence.go:262-310 | A key is new, replays its stored result for the same digests, or is refused for others |
| `ControlPlaneTheorems.ExecutionNeedsApproval` | studio-backend/control_plane.go:1375-1728 | In every snapshot reachable from the empty one, a source that is approved, executing, verifying or completed, also inside a failed run, rests on exactly one decision for its run: an approval of the digest recomputed from the three source plans |
| `ControlPlaneTheorems.OneFailedSource` | studio-backend/control_plane.go:1593-1636 | In every reachable snapshot a run is failed if and only if a source failed; that source is the only one and carries the run's code |
| `ControlPlaneTheorems.ActiveNamesDiffer` | studio-backend/control_plane.go:1220-1281 | In every reachable snapshot no two non-terminal runs share a name |
| `ControlPlaneTheorems.LogDeterminesRun` | studio-backend/control_plane.go:1116-1153 | In every reachable snapshot replaying a run's events from creation gives its three source states, manifest digests, plan digests once the gate opened, and derived state; completion, failure, rejection and approval were each reported exactly once if reached |
| `ControlPlaneTheorems.ProgressIsForward` | studio-backend/control_plane.go:1375-1463 | From any reachable snapshot on, sources only move forward, counters and bindings never regress, terminal runs stand, and events and approvals are only appended |
| `ControlPlaneTheorems.DerivedStateMeaning` | studio-backend/control_plane.go:565-595 | The derived state is failed iff a source failed, else cancelled iff one was, else the state of a source that no source is behind |
| `ControlPlaneAdmission.BuildsIff` | studio-backend/control_plane.go:1220-1728 | In every reachable snapshot a command builds if and only if the snapshot admits it: for each of the six commands the condition is written out on the run that is named, the update that is sent, the drawn ids and the room in the log |
| `ControlPlaneCommands.DecideEffect` | studio-backend/control_plane.go:1638-1728 | A decision that is built presents the digest of an undecided, waiting run; its sources become approved exactly if it approves and cancelled if not, and the record appended carries its digest, verdict, actor, reason and stamp |
| `ControlPlaneCommands.DecisionPresentsPlans` | studio-backend/control_plane.go:1638-1728 | In every reachable snapshot a decision is built only if its digest is the one recomputed from the run's three plans |
| `ControlPlaneCommands.StaleDecisionRefused` | studio-backend/control_plane.go:1673-1674 | In every reachable snapshot a well-formed decision on an undecided, waiting run with any other digest is refused as stale and changes nothing |
| `ControlPlaneCommands.EveryDecisionWasGiven` | studio-backend/control_plane.go:1638-1728 | Every decision on record in a reachable snapshot was sent by one command of the history with that digest, verdict, actor and reason, when the digest was that of the run's three plans |
| `ControlPlaneCommands.AdvanceEffect` | studio-backend/control_plane.go:1393-1463 | A source step leaves each counter at the value sent, or at its old value if none was sent, and everything else of the run but state, manifest digest and stamp as it was; it is reported with the evidence sent, of the kinds the step asks for |
| `ControlPlaneCommands.AttachEffect` | studio-backend/control_plane.go:1504-1541 | Binding a plan gives one planning source the artifact and digest sent, changes nothing else of the run but its stamp, and reports nothing |
| `ControlPlaneCommands.EnterEffect` | studio-backend/control_plane.go:1544-1590 | Opening the gate moves three planned sources, binds the digest of their plans and reports each plan with its artifact |
| `ControlPlaneCommands.FailEffect` | studio-backend/control_plane.go:1592-1636 | A failure report fails one source and the run with the code sent and leaves the other sources as they are |
| `ControlPlaneCommands.CreateEffect` | studio-backend/control_plane.go:1220-1281 | A run opens under the drawn id with the name and requester sent and three empty sources; its first event is its creation |
| `ControlPlaneCommands.StampMeans` | studio-backend/control_plane.go:1103-1113 | In every reachable snapshot a command is stamped with the clock reading, printed, if that is later than every event on record, and otherwise with a millisecond after the last of them |
| `ControlPlaneTheorems.CheckAllowsUngated` | studio-backend/control_plane.go:622-657 | The integrity check accepts a snapshot with an executing source and no decision, and two failed sources: the gate does not follow from the check |
| `ControlPlaneTheorems.CheckAllowsTwins` | studio-backend/control_plane.go:622-657 | The integrity check accepts two active runs of one name |
| `ControlPlaneTheorems.CheckIsNotInductive` | studio-backend/control_plane.go:1089-1101 | The check alone is not inductive: it accepts a run created a second after its last event, and refuses the failure report that a clock before both then builds |
| `ControlPlaneTheorems.FractionRefused` | studio-backend/control_plane.go:1103-1113 | After an event stamped half a millisecond, which the check accepts, a failure report at seven tenths is built and refused: the reading is later, its printed millisecond is earlier |
| `ControlPlaneTheorems.YearRefused` | studio-backend/control_plane.go:1103-1113 | After an event in the last millisecond of the year 9999, which the check accepts, a failure report at any earlier or equal reading is built and refused: the bump prints the year 10000 |
| `ControlPlaneTheorems.RevalidationNeverRejects` | studio-backend/control_plane.go:1015-1101 | From the empty store, under any history whose clock readings lie between the year 0 and about 2.8 hours before the year 10000, also jumping backward, nothing a command builds is ever refused by the check of its commit |
| `ControlPlaneValidity.CommitAcceptsIff` | studio-backend/control_plane.go:597-902 | From any snapshot the check accepts, with stamps to the nanosecond, it accepts what a command built if and only if the event cursor does not wrap, the year stamped has four digits, a command that reports an event needs the bump or is not before the last stamp once its fraction of a millisecond is dropped, and a command on an existing run is not stamped before its creation |
| `ControlPlaneHistory.BuildKeeps` | studio-backend/control_plane.go:1089-1113 | From every reachable state, what a command builds passes the revalidation in commit if and only if the year stamped has four digits, and then is sound again and only moves forward, also under a backward clock |
| `ControlPlaneHistory.ApplyKeeps` | studio-backend/control_plane.go:1015-1101 | After every outcome of every command memory equals the file; a command that built a snapshot reports an error exactly when the write did not fully succeed, and then both changed or neither did |
| `ControlPlaneHistory.HistoryKeeps` | studio-backend/control_plane.go:1015-1728 | Every history of commands, clock readings, drawn ids and write outcomes keeps the store sound and moves it forward |
| `ControlPlaneHistory.EventsBounded` | studio-backend/control_plane.go:809-902 | A valid snapshot holds at most ten million events, which is why the cursor of a reachable store never wraps |
| `ControlPlaneGate.AdvanceCarries` | studio-backend/control_plane.go:1393-1463 | A source step takes a well-shaped run, and what its log tells, to a well-shaped run that its extended log tells |
| `ControlPlaneGate.AttachCarries` | studio-backend/control_plane.go:1504-1541 | Attaching a plan appends no event and still keeps the log's account of the run |
| `ControlPlaneGate.EnterCarries` | studio-backend/control_plane.go:1544-1590 | Opening the gate binds the portfolio digest and reports the three plan digests |
| `ControlPlaneGate.FailCarries` | studio-backend/control_plane.go:1592-1636 | A failure report keeps the shape and is accounted for by two events |
| `ControlPlaneGate.DecideCarries` | studio-backend/control_plane.go:1638-1728 | A decision moves all three sources and is accounted for by its events |
| `ControlPlaneStream.PageContinues` | studio-backend/control_plane.go:1317-1357 | A page continues the log exactly where the client stopped; if not truncated the client then has all of it, else the page has limit events |
| `ControlPlaneStream.StreamIsPrefix` | studio-backend/control_plane.go:1317-1357 | With any mutations between pages, paging from the last received id never meets an unknown cursor and yields a prefix of the run's log: no gap, repetition or reordering (Last-Event-ID, section 9.2.4 of the HTML Standard) |
| `ControlPlaneStream.UntruncatedIsComplete` | studio-backend/control_plane.go:1317-1357 | After a page that is not truncated the client holds the whole log |
| `ControlPlaneStore.DeriveRunState` | studio-backend/control_plane.go:565-595 | The one-pass loop computes the derived state |
| `ControlPlaneStore.ValidateRuns` | studio-backend/control_plane.go:622-750 | The loop over the runs with its map of seen ids accepts exactly distinct, valid runs |
| `ControlPlaneStore.ValidateApprovals` | studio-backend/control_plane.go:751-807 | The two loops with their maps accept exactly the approval lists that match runs one to one |
| `ControlPlaneStore.ValidateEvents` | studio-backend/control_plane.go:809-902 | The loop with running counts, last sequence and last stamp accepts exactly the ordered, bounded, well-attributed logs |
| `ControlPlaneStore.ValidateSnapshot` | studio-backend/control_plane.go:622-657 | The validators together accept exactly the valid snapshots |
| `ControlPlaneStore.Find` | studio-backend/control_plane.go:553-560 | The scan returns the first run with the id |
| `ControlPlaneStore.Store.Commit` | studio-backend/control_plane.go:1089-1101 | The validated snapshot becomes visible exactly when the file was replaced; the error is reported also when only the directory sync failed |
| `ControlPlaneStore.Store.CreateRun` | studio-backend/control_plane.go:1220-1281 | Opens a run with three created sources, refusing duplicates of an active name and full stores: working step by step on a copy, it replies and leaves memory and file exactly as the transition function says, and keeps the store sound |
| `ControlPlaneStore.Store.AdvanceSource` | studio-backend/control_plane.go:1393-1463 | Moves one source one step with counters and evidence: working step by step on a copy, it replies and leaves memory and file exactly as the transition function says, and keeps the store sound |
| `ControlPlaneStore.Store.AttachSourcePlan` | studio-backend/control_plane.go:1504-1541 | Binds a plan to a planning source once: working step by step on a copy, it replies and leaves memory and file exactly as the transition function says, and keeps the store sound |
| `ControlPlaneStore.Store.EnterAwaitingApproval` | studio-backend/control_plane.go:1544-1590 | Opens the gate when all three plans are bound: working step by step on a copy, it replies and leaves memory and file exactly as the transition function says, and keeps the store sound |
| `ControlPlaneStore.Store.FailSource` | studio-backend/control_plane.go:1592-1636 | Fails one source and with it the run: working step by step on a copy, it replies and leaves memory and file exactly as the transition function says, and keeps the store sound |
| `ControlPlaneStore.Store.Decide` | studio-backend/control_plane.go:1638-1728 | Records the one decision on the current digest and approves or cancels all sources: working step by step on a copy, it replies and leaves memory and file exactly as the transition function says, and keeps the store sound |
| `ControlPlaneStore.Store.EventsAfter` | studio-backend/control_plane.go:1317-1357 | The scan from the cursor returns the page the paging theorems speak of |
| `HostedObject.PiecesJoin` | studio-backend/firestore_state.go:92-117 | Cutting a body into chunks loses nothing, keeps each within the chunk size, and needs no more chunks than the size bound gives |
| `HostedObject.WrittenIsReadable` | studio-backend/firestore_state.go:92-178 | Whoever holds a head whose chunks are stored reads back exactly the body written |
| `HostedObject.ObjectStore.EncodeBody` | studio-backend/firestore_state.go:92-117 | The offset loop yields the numbered pieces of the compressed body, or the error for a body over the size limit |
| `HostedObject.ObjectStore.ReadBody` | studio-backend/firestore_state.go:119-178 | The accumulating loop reads the body under the head, with each check of index, size and decoded length |
| `HostedObject.ObjectStore.Write` | studio-backend/firestore_state.go:180-233 | Chunks are created first and the head is swapped only if its revision is the expected one; the object afterwards is stated for every outcome |
| `HostedObject.ObjectStore.LoadOrCreate` | studio-backend/firestore_state.go:235-247 | An existing object is read untouched; a missing one is created and read back as the initial body whenever the drawn revision is unused |
| `HostedFleet.NoLostUpdate` | studio-backend/firestore_state.go:139-233 | For any number of processes whose reads and writes interleave step by step, with lost acknowledgements, failed writes given up by processes that go on, and stops, each value the head takes extends every value before it in events, approvals and progress, is sound, and no revision is used twice |
| `HostedSerial.HeadIsOneHistory` | studio-backend/firestore_state.go:139-233 | However the processes interleave, the values of the head are one serial run: the first is the empty control plane, and every other one is what one command asked for in the history makes of the value just before it |
| `HostedSerial.SwapPublishesIff` | studio-backend/firestore_state.go:204-222 | A swap publishes its pending snapshot if and only if the last value published is the one that its process built on; otherwise it changes no object; either way what the process then holds is given |
| `HostedSerial.WriterSucceeds` | studio-backend/firestore_state.go:139-247 | Whatever happened before, crashes and lost acknowledgements included, a process that starts over and writes alone under an unused revision publishes what its command makes of the last value |
| `HostedSerial.CreatorSucceeds` | studio-backend/firestore_state.go:233-247 | Before anything is published, a process that starts over can create the object under an unused revision |
| `HostedSerial.ReadsTheWritten` | studio-backend/firestore_state.go:102-178 | Whatever chunks a reader finds under the head of a body, it reads nothing, or a body of that size and digest |
| `HostedSerial.ReadableIff` | studio-backend/firestore_state.go:119-178 | A body is read under a head if and only if the head is well formed, every chunk is there with its index and within the chunk size, and their joined bytes decompress to a body of the head's size and digest |
| `HostedFleet.MemoryIsPublished` | studio-backend/control_plane.go:966-983 | A process only ever holds a snapshot that was published under its generation, and the current head extends it |
| `HostedFleet.HeadOpens` | studio-backend/firestore_state.go:139-178 | The visible head always has its complete chunks and opens as the snapshot last published |
| `HostedFleet.FetchedHeadStaysOpen` | studio-backend/firestore_state.go:139-178 | A head that a reader fetched still opens as its snapshot after any further steps, also once it was replaced |
| `HostedFleet.TakeKeeps` | studio-backend/firestore_state.go:180-248 | Every step of every process keeps the fleet invariant and only appends to the trail of heads |
| `HostedFleet.StagedFresh` | studio-backend/firestore_state.go:190-201 | Chunks can only be created under a revision that no head and no pending write uses |
| `HostedFleet.SwapBuildsOnLast` | studio-backend/firestore_state.go:206-227 | A head swap that succeeds builds on the last published value |
| `CloudReconcile.ReconcilesIff` | cloud_runtime/orchestrator.py:227-250 | The aggregate check holds if and only if there is at least one record and the rows observed, those of the run and source, are exactly one per ordinal 0..n-1, all of the expected lineage |
| `CloudReconcile.OrdinalsExact` | cloud_runtime/orchestrator.py:234-243 | Row count, distinct count, minimum and maximum hold together if and only if each ordinal occurs exactly once (pigeonhole) |
| `CloudReconcile.NoRecordsNeverReconcile` | cloud_runtime/orchestrator.py:243-249 | A bundle of no records never reconciles, whatever rows of the run and source are observed |
| `CloudReconcile.EmptyIff` | cloud_runtime/orchestrator.py:212-224 | The empty observation means exactly that no row of the run and source is in the table |
| `CloudReconcile.CopiesReconcileIffOne` | cloud_runtime/orchestrator.py:227-250 | Of exact rows of at least one record, k whole copies reconcile if and only if k = 1 |
| `CloudExecution.AtMostOneJobPerName` | cloud_runtime/orchestrator.py:327-368 | However many executions follow one another, each cut or failed at any port call, no job name is launched twice |
| `CloudExecution.LaunchesOnlyMissing` | cloud_runtime/orchestrator.py:327-368 | An execution, however it ends, takes no job away and launches under a name only if the name is one of its own and had no job |
| `CloudExecution.LostLaunchIsFound` | cloud_runtime/orchestrator.py:327-368 | A launch that took effect but whose answer was lost is made good by the next execution, which finds that very job and launches no other |
| `CloudExecution.SuccessIsExact` | cloud_runtime/orchestrator.py:370-441 | Any success means that every source has a record and its rows in the table were observed to be exactly one per ordinal of a single lineage |
| `CloudExecution.CleanExecutionSucceeds` | cloud_runtime/orchestrator.py:327-441 | Whatever earlier executions left behind, one whose calls answer and whose jobs write their rows once succeeds |
| `CloudExecution.SuccessIff` | cloud_runtime/orchestrator.py:327-441 | For any leftovers and any script of answers, an execution succeeds if and only if every upload is stored under its digest, every job is found alone while the rows of its run and source are none or exact, or else is launched while there are none, every job is done with exact rows of at least one record, and the audit is stored under its digest |
| `CloudExecution.Provider.ExecutePortfolio` | cloud_runtime/orchestrator.py:269-441 | The loops over upload, find-or-launch and verify do to the world what the execution function says, with the same outcome at every cut |
| `CloudExecution.Provider.Resolve` | cloud_runtime/orchestrator.py:327-368 | Reusing a found job, or launching only where no row of the run and source is in the table, as the execution function says |
| `CloudExecution.Provider.Verify` | cloud_runtime/orchestrator.py:370-418 | Waiting for the terminal state and reconciling, as the execution function says |
| `CloudAgreement.LaunchedIsAccepted` | cloud_runtime/bundle.py:264-353 | Whatever inputs bundles are built from, a bundle is launched exactly when its plan targets the configured dataset, and then the template accepts it under exactly its launch parameters, schema and job name |
| `CloudAgreement.ArrivesUnchanged` | cloud_runtime/dataflow_template.py:263-296 | The value in a destination row is the JSON value of the datum in the same row and column of the interpreter's output, and there are recordCount rows |
| `CloudAgreement.DestinationExact` | cloud_runtime/dataflow_template.py:263-296 | A destination row has exactly the columns of the schema: each declared column holds its cell's value, and the nine lineage columns hold the run, source, plan, bundle and job of the launch, the digest of the rows, the approval, the policy and the row's position |
| `CloudAgreement.SchemaTypes` | cloud_runtime/dataflow_template.py:34-44 | Column by column, the schema gives each declared kind its own type, the row ordinal INTEGER and the other lineage columns STRING, and requires exactly what is not nullable |
| `CloudAgreement.AcceptedIff` | cloud_runtime/dataflow_template.py:79-125 | The template accepts a decimal text exactly if the number it denotes could have been written, an instant exactly if it reads as one with an offset, and any other cell exactly if it is the JSON value of some datum |
| `CloudWarehouse.LoadedReconciles` | cloud_runtime/google_adapters.py:244-297 | With the rows of an accepted bundle loaded once anywhere in the destination table, what the query for the launch's run and source observes passes the orchestrator's reconciliation if and only if there is at least one row and no other row of the table carries that run and source |
| `CloudWarehouse.LoadedIsFound` | cloud_runtime/google_adapters.py:244-297 | The query for the launch's run and source finds every loaded row, with its position and lineage |
| `CloudLaunch.BundleCarries` | cloud_runtime/bundle.py:264-353 | The document of each bundle carries the run, portfolio, approval and policy and its own source's plan, target, fields, count and rows; its digests are those of its rows and of itself |
| `CloudLaunch.BundlesIff` | cloud_runtime/bundle.py:183-353 | Bundles are built if and only if the approval authorises the run, the execution is of the same run and portfolio, the portfolio is the digest of the three plans in order, and each plan is its source's, is digested as it says, targets its source's table and has an outcome for that target whose rows fit the declarations and are as many and digested as it says |
| `CloudLaunch.TemplateAcceptsIff` | cloud_runtime/dataflow_template.py:180-260 | The template goes on with a document if and only if it carries the launch's run, source, portfolio, plan and digest, targets the table of its source that the launch names, is digested as it says, declares the launch's schema, and its rows are as many as it says and valid |
| `CloudLaunch.LaunchNames` | cloud_runtime/orchestrator.py:184-209 | The launch parameters name the run, source, portfolio, plan, digest, destination table and schema of exactly the document that is launched |
| `CloudLaunch.ProtectionKept` | cloud_runtime/bundle.py:146-182 | No cell is launched unprotected, protection is never changed on the way, and a tokenized cell is a string that starts with tok_ and has at least eight more characters |
| `CloudLaunch.JobNamesAgreeIff` | cloud_runtime/orchestrator.py:178-181 | A job name is never shortened, and two bundles share one if and only if they agree on source, on the start of the run id up to case, and on the first twelve digits of the digest |
| `CloudAgreement.MeaningKept` | cloud_runtime/bundle.py:107-143 | Reading a written cell back gives the datum; a decimal keeps its value if and only if it has at most 28 significant digits and nine places |
| `CloudAgreement.CellAgrees` | cloud_runtime/dataflow_template.py:79-125 | Whatever the producer writes in a cell of a declared type, the template accepts |
| `CloudAgreement.OneBinding` | cloud_runtime/dataflow_template.py:192-227 | A document is accepted under one binding only: every launch parameter but project and job name is determined by it |
| `CloudAgreement.OneDocument` | cloud_runtime/dataflow_template.py:226-227 | One set of parameters admits one document: two different documents accepted under it are themselves a collision of the digest |
| `CloudAgreement.TableParses` | cloud_runtime/dataflow_template.py:128-141 | The table text of every valid configuration parses back to its project, dataset and table |
| `CloudAgreement.JobNameFits` | cloud_runtime/orchestrator.py:178-181 | Every derived job name matches the pattern the template requires |
| `CloudAgreement.JobNamesDiffer` | cloud_runtime/orchestrator.py:178-181 | The jobs of different sources never share a name |
| `CloudAgreement.SchemaNames` | cloud_runtime/dataflow_template.py:144-177 | The schema names exactly the declared fields and the nine lineage columns |
| `CloudDecimal.WrittenIsReadable` | cloud_runtime/bundle.py:118-133 | Every decimal the producer writes the template accepts, and both normalise to the same number, however many digits the input had |
| `CloudDecimal.ValueKeptIff` | cloud_runtime/bundle.py:128-133 | The written text denotes the input's value if and only if the input has at most 28 significant digits and at most nine places |
| `CloudDecimal.DomainIsNumeric` | cloud_runtime/bundle.py:131-133 | The domain that producer and template share is that of 38 digits with nine places: a multiple of a billionth that, counted in billionths, has at most 38 digits |
| `CloudDecimal.NormalizedIsNormal` | cloud_runtime/bundle.py:128-130 | Normalising leaves at most 28 digits and no trailing zero |
| `CloudDecimal.ExactNormal` | cloud_runtime/bundle.py:128-130 | A number that fits the precision normalises to itself without trailing zeros |
| `CloudTemplate.BigQuerySchema` | cloud_runtime/dataflow_template.py:144-177 | The loop with its set of seen names yields the schema exactly for non-empty, well-formed, distinct declarations |
| `CloudTemplate.CheckRows` | cloud_runtime/dataflow_template.py:235-258 | The row loops accept exactly rows whose keys are the declared names and whose cells are valid for their types |
| `CloudTemplate.ValidateBundleDocument` | cloud_runtime/dataflow_template.py:180-260 | Accepts exactly documents whose bindings, digests, declarations, count and rows all check |
| `CloudTemplate.DestinationRows` | cloud_runtime/dataflow_template.py:263-296 | The loop yields one row per bundle row with its ordinal and lineage, exactly when the job name fits and every cell is a cell; what each row holds is DestinationExact |
| `CloudBundle.OutputDeclarations` | cloud_runtime/bundle.py:79-104 | The loop accepts exactly non-empty, well-formed, distinct declarations and returns them in order |
| `CloudBundle.CanonicalRows` | cloud_runtime/bundle.py:146-182 | The nested loops accept exactly rows of the declared names with protected, typed cells, and build them cell by cell |
| `CloudBundle.BuildCloudBundles` | cloud_runtime/bundle.py:264-353 | Returns three bundles in source order exactly when every input check passes, each bound to its digests |
| `ApprovalFraming.FramesParse` | studio-backend/m3_approval.go:162-176 | Every list of fields shorter than 2^32 bytes is read back from its length-prefixed frames |
| `ApprovalFraming.ParseFrames` | studio-backend/m3_approval.go:162-176 | Whatever parses is the frames of what it parses to |
| `ApprovalFraming.StreamInjective` | studio-backend/m3_approval.go:162-176 | Equal hashed streams come from equal domains and equal field lists, if no field reaches 2^32 bytes |
| `ApprovalFraming.WrappedLengthCollides` | studio-backend/m3_approval.go:162-176 | Wherever the frames of some fields are 2^32 bytes, their length wraps to zero and under every domain two different field lists give the same hashed stream |
| `ApprovalFraming.WrappedFieldExists` | studio-backend/m3_approval.go:162-176 | Such frames exist: every field of 2^32 - 4 bytes gives two different field lists with one stream under every domain |
| `ApprovalRepository.EvaluateAdversarial` | studio-backend/m3_approval.go:276-317 | The two-pass evaluation over the threat battery equals the plain conjunction of its checks |
| `ApprovalRepository.RecordsRestOnRequests` | studio-backend/m3_approval.go:326-402 | In every reachable repository the records are as many as the used nonces and no more than the requests, each lies in its request's window, and each production record rests on an approving simulation record of equal plan, release and artifact |
| `ApprovalRepository.DecisionIsSingleUse` | studio-backend/m3_approval.go:370-402 | After a decision, under any history, its record stands and no attempt with its nonce or for its tenant, run and stage is recorded |
| `ApprovalRepository.RecordedIff` | studio-backend/m3_approval.go:370-402 | An attempt is recorded if and only if it repeats the request on record, decides, is first for nonce and stage, and is permitted |
| `ApprovalHistory.RecordedWhen` | studio-backend/m3_approval.go:370-402 | An attempt is recorded if and only if its request is on record and undecided, its nonce is unused and the request's own, its actor is authenticated and of a fitting role, the authority repeats every binding, it lies in the request's window and, for production, the simulation on record was approved for the same plan, release and artifact; the record then has the attempt's decision, actor and time and every field of the request |
| `ApprovalHistory.EveryRecordWasGiven` | studio-backend/m3_approval.go:326-402 | Every record of a reachable repository was given by one attempt of the history, with its request, decision, actor and time, by an entitled actor, and the request had been issued before |
| `ApprovalHistory.ProductionFollowsSimulation` | studio-backend/m3_approval.go:339-402 | In every history the decision on a production request follows the issue of that request, and that follows the recorded attempt that approved the simulation of the same plan, release and artifact in that run |
| `ApprovalHistory.EveryRequestIsSound` | studio-backend/m3_approval.go:208-258 | Every request of a reachable repository was valid when issued: a simulation continues nothing, a production request continues the approved simulation on record, at least one approver is asked for, it lives for some time, and its interrupt and digest are its own |
| `ApprovalHistory.UndecidedCanBeDecided` | studio-backend/m3_approval.go:326-402 | In every reachable repository each request without a decision for its tenant, run and stage can still be decided either way: its nonce is unused and its simulation stands |
| `ApprovalHistory.RecordDigestBinds` | studio-backend/m3_approval.go:390-394 | Two decisions with one record digest agree on request, actor, verdict and time, or are a collision of the hash |
| `ApprovalHistory.InterruptBinds` | studio-backend/m3_approval.go:182-192 | Two requests with one interrupt id agree on tenant, stage, plan, release, artifact and simulation, or are a collision of the hash or of the forty characters that are kept |
| `ApprovalRepository.RequestDigestBinds` | studio-backend/m3_approval.go:194-258 | Two valid requests with one digest are equal in every field, or are themselves a collision of the hash, given one-to-one number and time formats and fields below the length bound |
| `ApprovalRepository.HistoryKeeps` | studio-backend/m3_approval.go:326-402 | Every history keeps the repository invariant and only adds to it |
| `ApprovalRepository.Repository.IssuePending` | studio-backend/m3_approval.go:334-358 | A request is stored exactly when it is valid and neither its id nor its nonce is taken |
| `ApprovalRepository.Repository.CompareAndRecordDecision` | studio-backend/m3_approval.go:370-402 | The maps afterwards and the record are those of the transition function, and the invariant is kept; what is recorded, and when, is RecordedWhen |
| `CartridgeJde.BatchIsIncremental` | cartridge_lab/jde.py:110-156 | Applying d1 followed by d2 is applying d1 and then d2, renumbered, to the rows that came out: same rows in the same key order, or the same rejection |
| `CartridgeJde.BronzeRebuildsRows` | cartridge_lab/jde.py:159-177 | Replaying the bronze projection rebuilds exactly the rows the journal leaves |
| `CartridgeJde.CountsReconcile` | cartridge_lab/jde.py:193-225 | finalCount = snapshotCount + insertCount - deleteCount, and the three operation counts account for every entry |
| `CartridgeJdeRules.JournalAppliesIff` | cartridge_lab/jde.py:110-156 | A journal applies if and only if the snapshot's rows are well formed and of distinct keys, its entries are numbered from one, and each is an insert of a key that then holds nothing or an update or delete of one that then holds a row; the rows that come out are in key order and exactly those the keys hold after their last entries |
| `CartridgeJdeRules.BronzeLists` | cartridge_lab/jde.py:159-177 | The bronze projection of an accepted journal is one line per snapshot row and then one per entry in order, numbered from one, with operation, key and, unless it is a delete, row |
| `CartridgeJde.Apply` | cartridge_lab/jde.py:110-156 | The loops that insert into and delete from the table give the journal function's rows or its first rejection |
| `CartridgeJde.ProjectBronze` | cartridge_lab/jde.py:159-177 | The appending loops yield one projection row per snapshot row and one per entry, exactly when the journal applies |
| `CartridgeEbs.LastWriterWins` | cartridge_lab/oracle_ebs.py:184-240 | In an accepted delta the events of each key rise strictly in time and the last of them decides the key's row, else the snapshot does |
| `CartridgeEbs.ReorderingChangesNothing` | cartridge_lab/oracle_ebs.py:184-240 | Any reordering that keeps each key's own order gives the same acceptance and leaves every key with the same row and stamp |
| `CartridgeEbs.ReorderingKeepsCounts` | cartridge_lab/oracle_ebs.py:184-240 | Such a reordering keeps the numbers of upserts and deletes |
| `CartridgeEbs.CountsAreOperations` | cartridge_lab/oracle_ebs.py:184-240 | The reported counts are the numbers of upserts and deletes, which account for the delta |
| `CartridgeEbs.SeenVersionsAreRedundant` | cartridge_lab/oracle_ebs.py:205-225 | Dropping the seen-version check changes neither what is accepted nor what comes out |
| `CartridgeEbs.BronzeResolvesAgain` | cartridge_lab/oracle_ebs.py:134-178 | Resolving a row of the result again to project it never fails |
| `CartridgeEbsFields.ResolvesIff` | cartridge_lab/oracle_ebs.py:134-177 | A record resolves if and only if nothing of it is blank, the metadata is accepted, and each of its segments has a metadata row of its application, table, context, name and version that allows its value, with different outputs; its attributes are then exactly those outputs, each with its own segment's value; otherwise the first segment that fails gives the reason |
| `CartridgeEbsFields.MetadataAcceptedIff` | cartridge_lab/oracle_ebs.py:88-111 | Metadata is accepted if and only if there is some, every row is filled, of strings and with distinct allowed values, and no two rows are for one application, table, context, segment and version |
| `CartridgeEbsRules.CompilesIff` | cartridge_lab/oracle_ebs.py:184-240 | A packet compiles if and only if every snapshot record resolves, no two share a key, and every event is later than the watermark and than everything of its key, under a new stamp, and either an upsert that resolves or an empty delete of the row its key then holds; the rows that come out are exactly those the keys hold after their last events |
| `CartridgeEbs.ResolveRecord` | cartridge_lab/oracle_ebs.py:134-177 | The loop over the record's segments yields the resolved fields or the first rejection; which they are is ResolvesIff |
| `CartridgeEbs.BuildIndex` | cartridge_lab/oracle_ebs.py:88-111 | The loop indexes the metadata rows, refusing malformed and repeated ones |
| `CartridgeEbs.CompileRows` | cartridge_lab/oracle_ebs.py:184-240 | The loops over snapshot and delta with their dictionaries give the compiled state or the first rejection |
| `CartridgeAx.LastWriterWins` | cartridge_lab/ax.py:227-270 | In an accepted delta the watermarks rise strictly and each identity's row is what its last event left, else the snapshot's |
| `CartridgeAxRules.PacketAcceptedIff` | cartridge_lab/ax.py:109-270 | A packet is accepted if and only if its metadata is, its snapshot's records obey their tables under distinct identities with every base there, its events are numbered, rise in watermark and upsert matching records or delete what is there, and after the last event every base is there; the records that come out are exactly those the identities hold then |
| `CartridgeAxRules.MetadataAcceptedIff` | cartridge_lab/ax.py:109-161 | Metadata is accepted if and only if its fixed parts are, its tables have distinct names, each is a base that extends nothing or extends another table, and what a table extends is a base |
| `CartridgeAx.AcceptedRowsSound` | cartridge_lab/ax.py:227-270 | Accepted rows are well formed and unique, and no derived row lacks its base |
| `CartridgeAx.AcceptedRowsGrounded` | cartridge_lab/ax.py:109-270 | Under accepted metadata every accepted row of a derived table stands on an accepted row of a base table in its own scope, and rows of base tables name no base: inheritance is one level deep |
| `CartridgeAx.OrphansMayPass` | cartridge_lab/ax.py:227-270 | A derived row upserted just before its base of a delta that starts after its snapshot is accepted, although the rows in between fail the check the final rows pass |
| `CartridgeAx.FinalCheckIsOrphansOnly` | cartridge_lab/ax.py:196-214 | Validating the folded rows again, in any order, can only complain of an orphan |
| `CartridgeAx.CountsReconcile` | cartridge_lab/ax.py:394-412 | inserted + updated + deleted = delta rows; the final count is snapshot + inserted - deleted, plus the upserts of snapshot identities that follow their own delete, minus the upserts of other identities that find them present; so the simple count holds if and only if these are equally many |
| `CartridgeAx.SimpleCountHolds` | cartridge_lab/ax.py:394-402 | If no upsert returns and none repeats, in a delta that may name an identity many times, the simple count holds |
| `CartridgeAx.PresentIff` | cartridge_lab/ax.py:227-270 | An identity is present after a delta exactly as its own last event, or the snapshot, left it |
| `CartridgeAx.OnceMeansInserted` | cartridge_lab/ax.py:394-402 | A delta that names no identity twice satisfies the simple count |
| `CartridgeAx.SimpleCountFails` | cartridge_lab/ax.py:373-402 | A family of deltas that delete and restore a snapshot row: they start after the non-empty snapshot as the packet check asks, are accepted, and the simple count is one short |
| `CartridgeAx.SimpleCountExceeds` | cartridge_lab/ax.py:373-402 | A family of deltas that upsert a new identity twice: they start after the non-empty snapshot, are accepted, and the simple count is one over |
| `CartridgeAx.FailuresCancel` | cartridge_lab/ax.py:373-402 | A family of deltas that do both: they start after the non-empty snapshot, are accepted, and the simple count holds although each kind occurs |
| `CartridgeAx.ReadMetadata` | cartridge_lab/ax.py:109-161 | The loop over the table rows yields the table definitions or the first rejection: a wrong header, no tables, an unnamed or repeated table, an unknown kind, a base that extends, a table derived from nothing, from itself or, wherever it stands in the list, from what is not a base table |
| `CartridgeAx.ValidateRecords` | cartridge_lab/ax.py:196-214 | Metadata first, then the loops that index the records and check the bases, giving the rows or the first rejection |
| `CartridgeAx.FindOrphan` | cartridge_lab/ax.py:207-213 | The scan finds an orphan exactly when there is one |
| `CartridgeAx.ApplyDelta` | cartridge_lab/ax.py:227-270 | Metadata, snapshot and the loop over the delta give the folded, revalidated rows or the first rejection |
| `RateLimiter.WindowBound` | scripts/stage_executor.py:997-1041 | For serial calls with a nondecreasing clock every closed 60 s interval holds at most the global limit of admitted calls and at most the per-client limit for each client, every closed 86400 s interval at most the billable cap, whatever was refused or evicted |
| `RateLimiter.DecidesByHistory` | scripts/stage_executor.py:1012-1041 | The verdict on a call is the one that counting the admitted calls of its windows gives, in the source's order of refusals |
| `RateLimiter.EvictKeepsStamps` | scripts/stage_executor.py:1037-1040 | Evicting empty lists changes no client's stamps |
| `RateLimiter.Guard.CheckCall` | scripts/stage_executor.py:1012-1041 | The pruning and appending loops leave the lists and verdict of the checking function |

## Left out

- AuthorityTheorems.SupersededLeaseIsDead: CommitEffect is not covered, because it takes no lease in the source.
- AuthorityTheorems.LaunchRetryIff: the event sequence of a repeated launch is zero in the model as in the source, not that of the first call.
- AuthorityRetries.RetriesChangeNothing: claims, heartbeats, recoveries and outbox claims are not retries of a fact on record, because each asks to act anew.
- AuthorityRepository.Repository.RecoverExpiredLeases: the rows the query selects are an input that meets the query's condition; their order is free.
- AuthorityRepository.Repository.ClaimOutbox: the selected rows are an input; the order of the deliveries returned to the relay is not stated.
- HostedObject.ObjectStore.Write: Firestore's batch limits, its transaction retries and the name check are not modelled; a lost acknowledgement is a step of HostedFleet.
- CloudExecution.SuccessIsExact: speaks of what the tables showed at the verifying call, as the code can know no more; two executions at the same time are not covered, because find-then-launch is safe only one after the other.
- CloudAgreement.LaunchedIsAccepted: documents are values, so JSON shape errors (extra or missing keys, a dataset that is no string) and text that UTF-8 cannot encode are not modelled.
- CloudDecimal.WrittenIsReadable: reads numerals with sign, point and exponent; blanks, underscores and digits outside ASCII, which the language also accepts, are not modelled.
- CartridgeEbs.CompileRows: the final sort of the rows and the silver projection are not modelled; the result is the table by key.
- CartridgeAx.ApplyDelta: the final rows are a table by identity, so their sorted order is not stated; the fixed metadata header is one flag, and the packet's manifest is not modelled.
- AX bronze and JDE silver: the first lists digests of the inputs, the second renames one decoded field of rows already proved.
- RateLimiter.Guard.CheckCall: times are reals, so rounding of the subtraction is not modelled; calls are serial, as the clock is read before the lock.
- ControlPlaneStore.Store.Commit: the file's bytes are not modelled, only the snapshot they decode to.
- Runs as heap objects: the model replaces cloned runs by values, so the copy-on-write discipline itself (aliasing between the working copy and the visible snapshot) is not captured.
- Patterns and length bounds of texts, and summaries and hostnames, which no decision depends on.
- Source lists in another order or with other members than the three sources: the create request is refused before it reaches the store.
- Bodies and ordering of evidence references beyond what validation reads.
- HTTP handlers, authentication, problem bodies, server-sent event framing and the services around them: branch-level checks only.
- SQL isolation, deadlocks and driver errors: each transaction is one atomic step with one clock reading, or does not happen.
- Retries inside the Google clients, image and subnetwork patterns of the configuration, object names in the ingress bucket.
- UPMJ decoding, the edge adapters and the trusted interpreter are not part of this model; neither are the planner, the agent runtime, the plugin factory, demos, simulators and readiness scripts.
