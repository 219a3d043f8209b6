# Account switching, verified

GPA keeps one saved credential bundle per ChatGPT seat and switches the local Codex clients between
them. A switch rewrites one `auth.json` per storage, updates `state.json`, may restart the desktop App,
verifies the result and saves refreshed tokens back to the account library, all under a journal that a
rollback or the next start-up undoes. This project models that protocol and the two layers around it,
the reconciliation of refresh tokens below and the durable operation service above, and proves what they
keep over every pattern of I/O failures, every crash and every run.

## How the model is built

- **World** (`Disk`). The client files, the journal, the state file and the account library form one
  `Disk`. Every I/O call asks a schedule `nat -> Fate` what happens to it: it works, it fails, it takes
  effect but reports an error, or the process dies before it. Statements over all schedules therefore
  cover every combination of I/O failures and a crash between any two steps.
- **Programs** (`Transaction`, `Store`, `Switch`, `Operations`, `Import`, `Login`). The code that changes
  things step by step is written as methods over a `Machine`, a `Service` or a `Desk` object. Each is
  proved equal to a function of the old state, and the theorems are about those functions.
- **Theorems** (`Reconcile`, `Recovery`, `SwitchProofs`, `Guarantees`, `FixedPoint`, `Preview`,
  `SlotRestore`, `Completion`, `Clearance`, `OperationProofs`, `Execution`, `Idempotence`, `Consent`,
  `Requests`, `Records`, `Outcomes`, `Counterexamples`, `ImportProofs`, `LoginProofs`, `LoginSeats`, `SlotName`, `ShellQuote`).

| file | content |
|---|---|
| `Accounts`, `Clients`, `Disk` | identities and seats, slots; clients, targets and process states; files and I/O |
| `Reconcile`, `FixedPoint` | which refresh token wins, conflicts, and when reconciling again changes nothing |
| `Transaction`, `Recovery` | journal, rollback, start-up recovery |
| `Store`, `Switch`, `SwitchProofs`, `Guarantees` | saving a bundle; the switch; what it leaves; its promises |
| `SlotRestore` | which account slots a failed switch puts back |
| `Completion`, `Clearance` | exactly when a switch completes, and when it may write at all |
| `Preview` | the preview gate and its agreement with the executor |
| `Counterexamples` | disks on which a promise fails |
| `Operations`, `OperationProofs`, `Idempotence`, `Consent` | the operation service and its safety over runs |
| `Execution`, `Requests` | what the executor did for a history entry; which requests are taken, refused as stale, or cancelled |
| `Records`, `Outcomes` | what the service's records say about the disk |
| `Import`, `ImportProofs` | importing |
| `Login`, `LoginProofs`, `LoginSeats` | web logins and the seats of saved accounts |
| `SlotName`, `ShellQuote` | slot names, shell quoting |

## Model

| member | source | states |
|---|---|---|
| Accounts.SameSeatSymmetric | internal/gpa/auth.go:158-180 | the seat comparison does not depend on the order of its arguments |
| Accounts.SameSeatSelf | internal/gpa/auth.go:158-180 | an identity is the seat of itself exactly when it names a user, a subject or an address |
| Accounts.SameSeatOnFull | internal/gpa/auth.go:158-180 | with user and workspace ids present the comparison is equality of that pair, hence an equivalence |
| Accounts.SameSeatTransitiveExactly | internal/gpa/auth.go:158-180 | for bundles that carry given sets of claims the comparison is transitive if and only if one of the two comparisons cannot hold, or all three are decided by the same claim and a workspace named at both ends is named in the middle |
| Accounts.SameSeatAmongUsers | internal/gpa/auth.go:159-164 | three bundles with user ids chain exactly unless the middle one names no workspace and the outer two name different ones |
| Accounts.SameShapesChain | internal/gpa/auth.go:158-180 | among bundles that carry the same claims it is transitive |
| Accounts.FindByIdentity | internal/gpa/store.go:197-208 | scans the listing for a slot of the same seat; none is returned only if no listed slot matches |
| Accounts.FindUnique | internal/gpa/store.go:197-208 | if exactly one listed slot matches, that one is found |
| Accounts.FindFirst | internal/gpa/store.go:197-208 | a slot is found exactly if one listed from there on matches, and then it is the first |
| Clients.MergeClients | internal/gpa/clients.go:55-76 | one client per id, in the order in which the ids first appear: the last saved client of an id, or if none is saved the first discovered one; no id lost |
| Clients.ResolveTargets | internal/gpa/clients.go:244-286 | with one client per id: a target is known exactly if every part of it is blank, a kind, or names somebody, and then selects the clients that share a storage with one it names by kind, id or label |
| Clients.ResolveExactly | internal/gpa/clients.go:244-286 | the same as a property of resolution, for every client list and target |
| Clients.ResolveSelectsStorages | internal/gpa/clients.go:272-285 | the affected clients are exactly the clients on the selected storages: no storage is half selected |
| Clients.SplitExactly | internal/gpa/clients.go:248-251 | the parts of a target are what lies between its commas: joined by commas they give it back, and none holds one |
| Clients.TrimExactly | internal/gpa/clients.go:248-251 | of each part the blanks at both ends are dropped, and nothing else |
| Clients.UniqueStoragesMembers | internal/gpa/clients.go:339-349 | every storage is listed, once |
| Reconcile.ConflictingAuths | internal/gpa/switch.go:113-129 | reports a conflict exactly when two candidates with different tokens are not strictly ordered in time |
| Reconcile.NewestAuth | internal/gpa/switch.go:131-143 | returns the first of the dated candidates that no dated candidate is later than; none only if no candidate is dated |
| Reconcile.JudgeAccount | internal/gpa/switch.go:92-107 | what one account adopts, keeps or reports, including the second conflict branch |
| Reconcile.SecondBranchUnreachable | internal/gpa/switch.go:103-106 | the second conflict branch is never taken |
| Reconcile.JudgeExact | internal/gpa/switch.go:92-107 | conflict if and only if a clashing pair exists; otherwise every latest dated candidate, or with none dated every candidate, carries the resulting token |
| Reconcile.JudgeOrderIndependent | internal/gpa/switch.go:92-107 | order and number of copies of the observed bundles do not matter |
| Reconcile.GroupLives | internal/gpa/switch.go:77-86 | each observed bundle is attributed to the slot the library scan finds for it, in order |
| Reconcile.LatestLives | internal/gpa/switch.go:75-111 | the updates and conflicts of the whole library, as decided account by account |
| Reconcile.LatestLivesOrderIndependent | internal/gpa/switch.go:75-111 | any rearrangement of the clients gives the same conflicts, the same accounts to update and the same tokens |
| Reconcile.CredentialConflicts | internal/gpa/switch.go:598-619 | the preview's detector: accounts whose seat mates clash |
| Reconcile.ConflictMonotone | internal/gpa/switch.go:113-129 | more candidates never remove a conflict |
| Reconcile.DetectorsPartExactly | internal/gpa/switch.go:598-619 | over one account the preview reports a conflict that the executor does not see if and only if candidates clash and every clash involves a bundle that the library attributes to another slot; never the other way round |
| Reconcile.DetectorsAgree | internal/gpa/switch.go:598-619 | on the same files the executor's conflicts are among the preview's, and the two lists are equal if and only if that happens over no account; so whenever no identity fits two slots |
| Reconcile.DetectorsDifferOnTwins | internal/gpa/switch.go:598-619 | with two slots of one seat they differ: the preview blocks, the executor does not |
| Disk.Machine.Write | internal/gpa/clientio.go:102-107 | after a write the file holds the new content or what it held, the new content if the write reports success; no other file, nor journal, state or library, is touched; a process that dies in it leaves everything |
| Disk.Machine.PutJournal | internal/gpa/transaction.go:44-46 | all or nothing: on success the journal is on disk and nothing else changed, otherwise the disk is as it was |
| Store.Put | internal/gpa/store.go:143-195 | refuses what is not a bundle, an invalid name and, without overwrite, somebody else's slot; otherwise saves the bundle with the next revision, one file after the other |
| Store.PutSucceedsExactly | internal/gpa/store.go:143-195 | a save changes nothing if the bundle is not of ChatGPT or has no refresh token, if the name is not valid, or, without overwrite, if the slot is readably somebody else's; with all I/O working it succeeds if and only if nothing of that holds |
| Store.PutRaisesRevision | internal/gpa/store.go:166-190 | a save leaves the bundle at the revision that follows, which is one more and at least 1, and touches no other slot |
| Store.PutLeaves | internal/gpa/store.go:166-195 | however a save fails, the slot holds what it held or the new bundle, at its old revision or the one that follows; no other slot is touched |
| Store.PutKeepsListing | internal/gpa/store.go:143-195 | whatever fails, the accounts stay listed once each and in byte order |
| Store.SlotStaysInside | internal/gpa/store.go:143-150 | a valid slot name is a single path component |
| Store.SubjectNotProtected | internal/gpa/store.go:153-157 | a slot whose bundle names neither user nor address is taken by somebody else's bundle without overwrite |
| Transaction.Prepare | internal/gpa/transaction.go:23-48 | refuses while a journal exists; snapshots each storage once and makes the journal durable before anything is written |
| Transaction.Rollback | internal/gpa/transaction.go:49-84 | preflight of all files, restoration in reverse, state, journal, with every read, write and removal able to fail |
| Transaction.RecoverTransaction | internal/gpa/transaction.go:85-104 | nothing without a journal; deferred while a client of the journal is not known to be stopped; otherwise the rollback |
| Recovery.PreflightReads | internal/gpa/transaction.go:52-60 | the preflight changes nothing and passes only if every file is old, new or rightly absent |
| Recovery.RestoreSteps | internal/gpa/transaction.go:61-79 | after any part of the restoration every file is as found or as before the switch |
| Recovery.RollbackOutcome | internal/gpa/transaction.go:49-84 | with an unrecognised file nothing changes and the journal stays; otherwise it completes on the one restored disk or keeps the journal on the way to that same disk |
| Recovery.RollbackCompletes | internal/gpa/transaction.go:49-84 | without I/O errors a rollback succeeds if and only if every file is recognised |
| Recovery.RollbackDiscardsExactly | internal/gpa/transaction.go:49-84 | a completed rollback changes a file that holds anything but the new bytes if and only if the journal has it as absent before the switch, and then it was empty and is removed |
| Recovery.EmptyFileIsRemoved | internal/gpa/transaction.go:57-72 | that does happen: with the other files recognised such a rollback completes and removes the file |
| Recovery.RecoverOutcome | internal/gpa/transaction.go:85-104 | start-up recovery succeeds only if the query found every journalled client stopped and every file is recognised, and then leaves the restored disk; if a client was not found stopped or a file is not recognised, it touches nothing |
| Recovery.RecoverCompletesExactly | internal/gpa/transaction.go:85-104 | without I/O errors it succeeds if and only if that is so |
| Recovery.RecoverRunConverges | internal/gpa/transaction.go:85-104 | over any sequence of failing, deferred or killed start-ups the disk stays on the way to the same restored disk |
| Switch.LiveAuths | internal/gpa/switch.go:39-59 | the bundles in the client files |
| SwitchProofs.ReadsOnce | internal/gpa/switch.go:39-59 | each client file is read once, however often its client is listed |
| Switch.HoldWrites | internal/gpa/switch.go:200-225 | the storages held back: those of a running CLI always, those of a running App unless forced |
| Switch.WriteFiles | internal/gpa/switch.go:313-322 | writes the files in snapshot order up to the first failure |
| Switch.VerifyFiles | internal/gpa/switch.go:339-351 | reads every affected storage back and checks its seat |
| Switch.AdoptAndCommit | internal/gpa/switch.go:353-432 | backs the slots up, saves the refreshed bundles, removes the journal; after a failure it rolls back and writes the slots back |
| Switch.NothingHeld | internal/gpa/switch.go:289-297 | past the gates no client is set aside |
| Switch.Perform | internal/gpa/switch.go:280-451 | everything after the gates, with the tail for skipped clients, which cannot run |
| Switch.UseAccount | internal/gpa/switch.go:161-451 | the whole switch: gates, reconciliation, journal, writes, state, App start, verification, adoption, commit |
| SwitchProofs.PutAllOutcome | internal/gpa/switch.go:410-418 | after a partial save every slot holds its old or its refreshed bundle; after a complete one the refreshed bundle with the next revision |
| SlotRestore.RestoredExactly | internal/gpa/switch.go:392-409 | writing the slots back leaves the account library as it was before the switch if and only if of every slot each file was written back or had not changed |
| SlotRestore.FailureRestoresLibrary | internal/gpa/switch.go:410-426 | a failed switch, its files restored or not, leaves the account library as it was if its last calls, two for each refreshed account, take effect |
| SlotRestore.BacksUpFirst | internal/gpa/switch.go:362-391 | both files of every slot to be refreshed are read before any slot is touched: if one of these reads fails the switch fails and the account library is as it was |
| Counterexamples.SlotKeepsRefreshed | internal/gpa/switch.go:420-426 | otherwise a switch reported as restored may leave a refreshed bundle in a slot: a concrete run |
| SwitchProofs.ExecuteOutcome | internal/gpa/switch.go:298-451 | after the journal was written, and however the process ends, the switch is in flight, rolled back or committed, and the report of a surviving process says which |
| Guarantees.ReportIsTrue | internal/gpa/switch.go:161-451 | completed: every affected file verified with the seat of a refreshable bundle, others untouched, state.json naming the account as current and otherwise as before, refreshed bundles saved at their next revision and every other slot as before, journal gone; pending, blocked and dry runs: nothing changed; failed and restored: files as before, state.json naming the account it named, with all its fields, no slot changed but those to be refreshed, which hold the old or the refreshed bundle at the old or the next revision; failed recovery: the journal is there, the slots likewise |
| Outcomes.AdoptedExactly | internal/gpa/switch.go:274-287 | a completed switch lists as adopted exactly the other accounts whose saved refresh token it replaced, each once |
| Guarantees.WritesInScope | internal/gpa/switch.go:313-322 | under every failure and crash, no file outside the target's storages is touched |
| Clearance.WritesOnlyWhenClear | internal/gpa/switch.go:161-297 | whatever fails, a switch changes the disk only for a saved, refreshable account and a known target, if every process query of the target worked, no CLI of it runs, each App of it is stopped or may be restarted and did stop, and no account has clashing tokens |
| Clearance.ExecutesExactly | internal/gpa/switch.go:161-297 | it goes on to its journal exactly then |
| Clearance.AppIsStarted | internal/gpa/switch.go:330-337 | a completed switch has started the App again if it stopped one, and opened it if asked to |
| Completion.SwitchCompletesExactly | internal/gpa/switch.go:161-451 | whatever I/O fails a switch completes only if it passes every gate, no journal is left over, the App starts if it must, and every affected file holds the seat when it is read back; with all I/O working it completes if and only if so |
| Completion.QuietSwitchCompletesExactly | internal/gpa/switch.go:339-351 | if no client rewrites its file, the last condition is that the saved account names a user, a subject or an address, or no client is affected |
| Guarantees.SwitchLeavesWhole | internal/gpa/switch.go:298-426 | without client writes a switch leaves all old, all new, or a journal over files each old or new |
| Guarantees.CrashAtomicity | internal/gpa/transaction.go:23-104 | killed anywhere and recovered any number of times: once a start-up succeeds, the journal is gone and files and state are all old or all new; a quiet start-up without I/O errors succeeds |
| Guarantees.NoTokenLost | internal/gpa/switch.go:266-426 | the newest bundle the switch saw of every saved account survives, in the slot, a client file or the journal, at every later disk |
| Guarantees.HappenKeepsCover | internal/gpa/transaction.go:49-104 | no start-up, and no client rewriting a journalled file, destroys the last copy |
| FixedPoint.ReconciledAgain | internal/gpa/switch.go:75-111 | with distinct seats, reconciling after a switch never conflicts, and finds nothing to adopt if and only if each surviving rival of a kept bundle is older than a surviving copy of its token |
| FixedPoint.ReconciledOnce | internal/gpa/switch.go:75-111 | if the refresh time is a function of the token, reconciling again is a fixed point |
| Counterexamples.RivalRevivesOnDisk | internal/gpa/switch.go:266-418 | otherwise it may fail: a disk on which a completed switch overwrites a newer copy of the stored token, and the next observation adopts an older rival that was kept out before |
| FixedPoint.CompletedSwitchSettles | internal/gpa/switch.go:266-418 | the same if and only if, after a completed switch and with the condition read off the disk before it |
| Preview.PreviewDecision | internal/app/switch.go:32-72 | the decision of a preview: conflict, no-op, or the gate over the affected clients |
| Preview.GateIsMaximum | internal/app/switch.go:39-55 | the loop computes the greatest severity among the affected clients |
| Preview.GateOrderIndependent | internal/app/switch.go:39-55 | in any order |
| Preview.GateOnProbes | internal/gpa/process.go:415-463 | each answer of the gate holds exactly under its condition on the probes |
| Preview.ExecutorGates | internal/gpa/switch.go:185-272 | the executor is blocked on a failed query, else pending on a held storage, else failed if the App cannot be stopped, else blocked on a conflict, else completed or failed |
| Preview.GatePredictsExecutor | internal/gpa/switch.go:185-272 | on the same probes and files: ready means completed or failed; a required restart means pending, or with force completed or failed; a failed query means blocked; CLI_IN_USE means pending if and only if a held client is running; a reported conflict stops the executor, unless the detectors part over it |
| Preview.CliInUseHolds | internal/app/switch.go:47-50 | if every affected client is an App or a CLI, a preview of CLI_IN_USE means that the executor reports pending, even with force |
| Counterexamples.OtherKindIsWritten | internal/gpa/process.go:447-463 | for a running client of another kind it does not: the preview says CLI_IN_USE and the executor completes |
| Operations.Targets | internal/app/service.go:249-285 | the target views: the desktop with its sharers, each CLI but win-cli, and all |
| Consent.TargetsExactly | internal/app/service.go:249-285 | every view is of the desktop, of a CLI or of all clients: one of the desktop, with the clients on its storage, exactly if the first App has an id, one of each CLI but win-cli, one of all if there is a client; with one client per id no view shows anybody twice |
| Operations.Service.Save | internal/app/switch.go:428-431 | a failed save leaves all records and the listing; one that works changes this record only, and the listing still shows exactly the records, older ones in their old order |
| Operations.Service.LookupIdem | internal/app/switch.go:433-440 | the newest operation that recorded the key |
| Operations.KeyFromSound | internal/app/switch.go:433-440 | a key is found exactly when some listed operation recorded it |
| Operations.Service.MakePreview | internal/app/switch.go:13-94 | a plan with the members, the revision and the decision, saved before it is returned |
| Requests.PlanShowsAccount | internal/app/switch.go:13-94 | a plan is for the account asked for, at the revision its slot has on that disk, 0 without one, and shows the members of the target's view |
| Requests.PlansNeverChange | internal/app/switch.go:75-94 | a saved plan never changes in any run |
| Requests.SavedAgainGoesStale | internal/app/switch.go:171-178 | if between a preview and the request the slot came to another revision, by whatever run, a submission of the plan under a new key is refused as stale and changes nothing, and a confirmation never restarts the App |
| Requests.ExpiredSubmissionStops | internal/app/switch.go:164-170 | an expired plan submitted under a new key is refused as stale |
| Requests.UnknownPlanStops | internal/app/switch.go:164-167 | what is not the name of a saved plan is refused |
| Operations.Service.RunSwitch | internal/app/switch.go:227-258 | one executor call on the durable record, its outcome and recovery status recorded, or the loss of that record reported; what the call is for runs is Execution.ExecutionsCarried |
| Execution.ExecutionsCarried | internal/app/switch.go:227-258 | an execution is one switch to the account and target of its history entry, with a restart of the App only if the entry says so: the disk and the record are what that switch left and reported, no file but the entry's was written, and without a restart nothing at all while the App runs, which is then recorded as waiting; a request that adds no entry changes no disk |
| OperationProofs.TookSettles | internal/app/switch.go:195-226 | an accepted request runs the executor exactly if the latest plan is ready, or wants only the App restart that was confirmed; else its record is blocked, succeeded or waiting as the plan was blocked, a no-op or waiting, with the reason of the plan, and nothing else happened |
| Operations.Service.SubmitRequest | internal/app/switch.go:148-226 | replay, stale plan, expired plan and downgraded confirmation; what this means for runs is Consent.ExecutionsWarranted |
| Requests.SubmissionTaken | internal/app/switch.go:148-226 | a submission under a new key of a plan that has not expired and still holds is entered, with the latest plan, and run exactly if that plan is ready |
| Requests.RetryTaken | internal/app/switch.go:270-290 | so is a retry of an operation that can be resumed, even if its plan does not hold any more |
| Requests.ConfirmationTaken | internal/app/switch.go:261-290 | so is a confirmation from the web session of an operation that waits for the restart; the App may restart exactly if the plan on record still holds |
| Requests.GoalsNeverChange | internal/app/switch.go:179-194 | the account and the target of an operation never change in any run |
| Operations.Service.Resume | internal/app/switch.go:270-290 | settled or running operations are shown, doubtful recoveries refused, and only a waiting restart is confirmed |
| Operations.Service.Confirm | internal/app/switch.go:261-266 | only the web session confirms |
| Requests.TurnedDown | internal/app/switch.go:261-290 | why a retry or a confirmation is turned down at once, changing nothing: not from the web session, unknown, settled or running, which is shown, a doubtful recovery, or nothing to confirm |
| Requests.RepliesAreTrue | internal/app/switch.go:148-310 | every reply of a serving host is true: a record shown is the one stored, an outcome reported as lost left its operation in progress, a refusal entered nothing |
| Operations.Service.Cancel | internal/app/switch.go:291-310 | cancels anything but a running or succeeded operation |
| Requests.CancelsExactly | internal/app/switch.go:291-310 | a cancellation takes effect if and only if the operation is known, neither running nor succeeded, and its record can be saved; then only its status changes |
| Operations.Service.Recover | internal/app/service.go:380-408 | recovery first, then every unfinished record is marked interrupted with the recovery status; a failed save ends the start-up |
| OperationProofs.SubmitShape | internal/app/switch.go:148-227 | a request leaves the records alone or enters one unused key into one operation, on a plan it was compared with |
| OperationProofs.PendingJournalStops | internal/gpa/transaction.go:24-26 | while a journal remains a switch changes nothing on the disk |
| OperationProofs.MarkShape | internal/app/service.go:388-408 | a start-up changes only unfinished records, to interrupted ones |
| Idempotence.InvRun | internal/app/switch.go:148-227 | in every run no key is in two operations, no key is executed twice, each executed key was recorded in progress first, and an operation has as many keys as attempts |
| Idempotence.ExecutionsBounded | internal/app/switch.go:180-194 | an operation is executed at most as often as it was attempted |
| Idempotence.ReplayShowsOwner | internal/app/switch.go:158-163 | a recorded key changes nothing: the owner is shown, or the request refused if it is a different one |
| Idempotence.KeysStay | internal/app/switch.go:179-194 | a recorded key stays recorded in its operation in every run |
| Idempotence.SavedBeforeRun | internal/app/switch.go:221-227 | every executor call follows a durable record in progress of the same operation under a new key; if that save fails the executor is not called |
| Idempotence.SettledForever | internal/app/switch.go:280-310 | a succeeded or cancelled record never changes and is never executed in any run |
| Idempotence.ClosedForever | internal/app/switch.go:280-285 | an operation that is settled, or whose recovery is failed or unknown, is never executed again in any run, whatever later start-ups restore |
| Idempotence.CrashGating | internal/app/service.go:386-407 | an operation left in progress is not executed again unless a start-up that found it in progress found a journal and rolled it back |
| Idempotence.StartUpClosesExactly | internal/app/service.go:388-407 | a start-up marks an unfinished operation failed and interrupted, closes it if and only if it did not roll a journal back, and records its recovery as failed if and only if recovery did not succeed |
| Idempotence.DeferredRecoveryCloses | internal/gpa/transaction.go:97-102 | so a recovery put off because a journalled client was not found stopped touches nothing and closes the operation for good |
| Idempotence.ReopeningRestores | internal/app/service.go:386-398 | such a start-up leaves the restored disk |
| Idempotence.JournalFreezesDisk | internal/app/switch.go:227-258 | while a journal remains no request changes a client file, the state or an account |
| Idempotence.ServingMeansFinished | internal/app/service.go:388-408 | a host that serves has left no operation unfinished |
| Records.StoredOutcomeIsTrue | internal/app/switch.go:227-258 | after an executor call the operation is still recorded in progress, or its record is true of the disk: succeeded means switched, waiting and blocked mean untouched, failed means untouched, restored or with the journal still there |
| Records.PendingLeavesRecord | internal/gpa/switch.go:226-250 | a switch that turns out pending leaves a record of its own, for its account and target, next to the operation's, which waits for the client; no other switch does |
| Records.UnknownRecoveryExactly | internal/app/switch.go:246-253 | the recovery of a surviving run is recorded as unknown if and only if the account or the target was not there or, past the probes and the held storages, the App was to be stopped and still ran |
| Records.HarmlessFailureCloses | internal/app/switch.go:246-253 | such a failure changes nothing, yet its operation is never taken up again |
| Outcomes.ExecutedConcludes | internal/app/switch.go:195-258 | if the executor meets the probes and files that the preview met, an executed operation is recorded as succeeded or failed, or is still in progress because the outcome could not be saved; never as waiting or blocked |
| Outcomes.NoopExactly | internal/app/switch.go:57-72 | a plan is a no-op if and only if no credentials clash, no process query failed and every file of the target already holds the seat |
| Outcomes.SucceededIsTrue | internal/app/switch.go:195-234 | an operation becomes succeeded only by a request, and truly so: its plan was a no-op, nothing changed and every file of the target held the seat; or the switch was done |
| Consent.ScopeCoversExactly | internal/app/service.go:249-285 | the files a target resolves to lie on the storages of the members shown if and only if every client the target names shares its storage with a member |
| Consent.DesktopNamesExactly | internal/app/service.go:251-266 | for the desktop: if and only if all Apps share one storage |
| Consent.CliNamesExactly | internal/gpa/clients.go:259-270 | for a CLI: if and only if nobody on another storage answers to its name by id, in another letter case, or by label |
| Consent.AllNamesMembers | internal/app/service.go:277-283 | the target of all clients always shows everything it names |
| Counterexamples.NamesakeIsOverwritten | internal/gpa/clients.go:262 | otherwise a switch to a target that shows one member overwrites another client's file: a label that is an id in another case |
| Consent.ExecutionsWarranted | internal/app/switch.go:171-227 | in every run, each execution has a request that warrants it, and a latest preview that found the switch ready, or only the App in the way and its restart confirmed; a submission runs only the plan it names, unchanged and not expired; the App may restart only after a confirmation from the web session of that operation while it awaited the restart, for the plan then on record: same target and revision, only files of clients the target names, and none outside the members shown while the target names only members; and it was carried out so, as Execution.ExecutionsCarried says |
| Consent.StaleConfirmAsksAgain | internal/app/switch.go:175-216 | a stale confirmation never restarts the App; it puts the latest plan on record and, if a restart is still needed, waits for consent to that one |
| Import.ImportPreview | internal/app/import.go:11-50 | sorts the valid bundles of the usable sources into new, mergeable and conflicting names |
| Import.ImportApply | internal/app/import.go:52-97 | adds, skips or counts each bundle in order, up to the first error |
| ImportProofs.VerdictExact | internal/app/import.go:76-89 | in the middle of a run, a bundle is added exactly if no slot of before the call and no bundle that entered since has its seat, and none is readable under its name |
| ImportProofs.VerdictMeans | internal/app/import.go:33-46 | skipped (mergeable in the preview) if the first slot of the seat has the same refresh token; a conflict if that slot has another one, or no slot has the seat but one has the name |
| ImportProofs.ItemsExactly | internal/app/import.go:11-30 | an import meets exactly the refreshable bundles in the subfolders of the sources that are there and are not this store |
| ImportProofs.PreviewExact | internal/app/import.go:25-49 | the preview lists as new, mergeable and conflicting exactly the bundles that the library meets so, in order |
| ImportProofs.ImportExact | internal/app/import.go:52-97 | without errors, exactly the entering bundles are saved, every valid bundle is counted once, and no other slot changes |
| ImportProofs.CountsExact | internal/app/import.go:72-94 | skipped and conflicting are counted exactly the bundles that meet the library so when their turn comes |
| ImportProofs.StopsAt | internal/app/import.go:70-95 | an import that stops reports the counts of the items before the one it stopped at |
| ImportProofs.ImportCompletesExactly | internal/app/import.go:52-97 | with all I/O working an import completes if and only if every folder can be listed and every entering bundle has a name that a slot can have |
| ImportProofs.ReadableSlotsUnchanged | internal/app/import.go:76-89 | every readable slot stays as it was, revision included |
| ImportProofs.OverwritesExactlyDamaged | internal/gpa/store.go:153-165 | no existing slot changes if and only if no bundle enters under the name of a damaged one |
| ImportProofs.DamagedSlotOverwritten | internal/app/import.go:86-93 | a damaged slot is overwritten by a bundle of its name |
| ImportProofs.AddedWithinPreview | internal/app/import.go:33-40 | at most what the preview called new is added |
| ImportProofs.ImportIdempotent | internal/app/import.go:52-97 | after a completed import a second one succeeds, whatever its I/O would do, adds nothing and changes nothing, also when sources share names or seats |
| Login.Desk.StartLogin | internal/app/login.go:25-51 | refused while a login is pending; otherwise recorded before its task starts |
| LoginProofs.StartsExactly | internal/app/login.go:25-51 | a login is started if and only if none is pending, the account to renew was found and its record could be saved |
| LoginProofs.CancelsExactly | internal/app/login.go:60-77 | a pending login can be cancelled at any time, which stops its thread; no other login can |
| LoginProofs.ThreadReports | internal/app/login.go:173-237 | a reported code makes a login waiting; its thread ends it as expired if its time ran out, else as failed; a cancelled one stays cancelled |
| Login.Desk.Commit | internal/app/login.go:116-172 | the section that saves a captured bundle, with every refusal and every failing write |
| LoginProofs.SuccessGoesTo | internal/app/login.go:124-170 | a login that succeeds saves its bundle in the slot it renews: the one asked for, else the first slot of the seat; only if no slot has the seat it makes a new one |
| LoginProofs.CommitSucceedsExactly | internal/app/login.go:116-172 | with all I/O working it succeeds if and only if it was neither cancelled nor timed out, captured a refreshable bundle, a renewal signed in as the same seat and a new slot can have the proposed name; a renewal as somebody else is told so and changes nothing |
| LoginProofs.CommitLeavesWrites | internal/app/login.go:147-160 | the disk is then what the writes of the save left, also if the host died in them |
| LoginProofs.ServingExpiresExactly | internal/app/service.go:409-426 | a start-up serves if and only if every pending login file it lists could be saved; it then has expired exactly those, so none of them is pending, and no other file changed |
| LoginProofs.InvRun | internal/app/login.go:25-188 | in every interleaving at most one login is active, every task agrees with its record, and a login is expired only if its time ran out, and then neither fails nor succeeds |
| LoginProofs.FinalForever | internal/app/login.go:60-188 | a cancelled, succeeded, failed or expired record never changes again |
| LoginProofs.CommitKeepsSeats | internal/app/login.go:118-172 | however its writes fail, a commit leaves every saved account with its bundle or with the captured one of the same seat; after cancellation or time-out it changes nothing |
| LoginSeats.SeatsOverRuns | internal/app/login.go:118-172 | over every run of logins a saved account keeps its first seat if with every login that commits the claims of the first, the current and the captured bundle chain |
| LoginSeats.FullAndEqualChain | internal/gpa/auth.go:158-180 | they always do among bundles with user and workspace ids, and among bundles that carry the same claims |
| LoginSeats.SeatDrifts | internal/app/login.go:118-172 | for claims that do not chain two renewals suffice: after them a slot no longer holds its first seat |
| LoginProofs.SuccessIsStored | internal/app/login.go:130-170 | succeeded means the captured bundle is in the named slot, for a renewal in the slot it was asked for |
| LoginProofs.StoreUntouched | internal/app/login.go:118-122 | no other step touches the store, and a cancelled login never does |
| LoginProofs.CommitStrandsExactly | internal/app/login.go:120-122 | a commit ends a login without a final status if and only if its time ran out after the capture and it was not cancelled |
| LoginProofs.OnlyCommitStrands | internal/app/login.go:25-188 | no other step does |
| LoginProofs.StrandedBlocks | internal/app/login.go:28-32 | it blocks every new login until it is cancelled or the host ends |
| SlotName.DefaultSlotName | internal/gpa/auth.go:182-226 | terminates for every identity and finite set of taken names with a free name: the plan, the plan with the local part, the slug, or the slug with the first free number |
| SlotName.LocalExactly | internal/gpa/auth.go:189-192 | the local part is what precedes the first @ of the address, or account without one |
| SlotName.SlugExactly | internal/gpa/auth.go:198-216 | the slug is the address, else the user id, else account, without what a name cannot have and dashes at both ends, and with dashes for the rest of it; account if nothing is left |
| SlotName.ValueOfItoa | internal/gpa/auth.go:220-225 | different numbers give different suffixes |
| SlotName.ProposalValidExactly | internal/gpa/auth.go:182-226 | exactly when the proposal is a name that a slot can have |
| SlotName.PlainAddressNeeded | internal/gpa/auth.go:189-196 | it is not always: a concrete address |
| ShellQuote.ReadQuoted | internal/gpa/clientio.go:116-118 | anywhere in a line, a quoted text adds exactly itself to the current word |
| ShellQuote.QuoteRoundTrip | internal/gpa/clientio.go:116-118 | the shell reads a quoted text as one word equal to it, if and only if it has no NUL |
| ShellQuote.LineArguments | internal/gpa/clientio.go:128-151 | a command line of plain words and a quoted path has exactly those arguments |

## Findings

Where a promise turned out narrower than the code or its documentation suggests, the code was followed.

- A slot whose bundle is known by its subject alone can be overwritten by somebody else's without `--force`
  (`Store.SubjectNotProtected`); exactly what a save refuses is `Store.PutSucceedsExactly`.
- An import overwrites a slot whose `auth.json` cannot be read if a bundle of that name is offered
  (`ImportProofs.DamagedSlotOverwritten`); `ImportProofs.OverwritesExactlyDamaged` gives the exact condition.
- Reconciling after a completed switch can adopt an older token if the newer copy that outdated it was
  overwritten by the switch (`Counterexamples.RivalRevivesOnDisk`); exactly when is
  `FixedPoint.CompletedSwitchSettles`.
- The seat comparison is not transitive: a middle bundle without a workspace, or one that shares a different
  claim with either end, joins bundles that are not of one seat (`Accounts.SameSeatNotTransitive`). Exactly
  which sets of claims chain is `Accounts.SameSeatTransitiveExactly`.
- Renewals can carry a saved account from one seat to another (`LoginSeats.SeatDrifts`), for exactly the sets of
  claims that do not chain; with those that do it keeps its seat over every run (`LoginSeats.SeatsOverRuns`).
- A switch that is reported as failed and restored can leave a refreshed bundle in a slot, because putting slots
  back is not checked (`Counterexamples.SlotKeepsRefreshed`); exactly when is `SlotRestore.RestoredExactly`.
- An import with a bundle whose folder name no slot can have fails at that bundle each time it is repeated;
  exactly when imports complete is `ImportProofs.ImportCompletesExactly`.
- With two slots of one seat the preview can report a conflict that the executor does not see
  (`Reconcile.DetectorsDifferOnTwins`); exactly when is `Reconcile.DetectorsPartExactly`.
- A running client that is neither App nor CLI makes the preview say CLI_IN_USE, yet the executor writes its
  file (`Counterexamples.OtherKindIsWritten`); `Preview.GatePredictsExecutor` says exactly when CLI_IN_USE is pending.
- A rollback removes a file that a client created empty after a switch to a storage without one
  (`Recovery.EmptyFileIsRemoved`), and takes nothing else from the clients (`Recovery.RollbackDiscardsExactly`).
- The proposed slot name of a second account of a plan can be one that `Put` refuses (`SlotName.PlainAddressNeeded`);
  exactly when is `SlotName.ProposalValidExactly`.
- A client can answer to another client's id by its label or in another letter case. A switch then writes a file
  outside the members that were shown and confirmed (`Counterexamples.NamesakeIsOverwritten`); exactly when
  is `Consent.ScopeCoversExactly`.
- A switch that fails before its journal, for instance because the App cannot be stopped, is recorded with
  an unknown recovery, and its operation can never be retried (`Records.HarmlessFailureCloses`); exactly
  when is `Records.UnknownRecoveryExactly`.
- An interrupted operation whose recovery is put off at start-up, because a client runs, counts as failed for
  good, also after a later start-up restored the files (`Idempotence.DeferredRecoveryCloses`); exactly
  which are closed is `Idempotence.StartUpClosesExactly`.
- A login that times out between capture and commit stays pending and blocks others
  (`LoginProofs.StrandedBlocks`); exactly when is `LoginProofs.CommitStrandsExactly`.
- The hint to repeat a conflicting switch with `--force` (internal/gpa/switch.go:270) cannot help: past the
  other gates a conflict blocks a forced switch too (`Preview.ExecutorGates`).
- An account without user id, subject and address can be saved but never switched to on a client that keeps
  its file, and any other can (`Completion.QuietSwitchCompletesExactly`).

## Left out

- Guarantees.NoTokenLost: clients may rewrite files of the switch's target after the App start and journalled files at any later time, but not other files and not between probe and App start, because the code itself does not look again.
- Guarantees.CrashAtomicity: assumes that no client writes in between; with such writes `Guarantees.ReportIsTrue` and `Recovery.RollbackOutcome` say what remains.
- FixedPoint.CompletedSwitchSettles: assumes distinct seats with user and workspace ids, no client write during the switch, and that every client file could be read.
- The directory lock (internal/gpa/lock.go): a request, a start-up or a switch is one critical section.
- Process queries, App control and the snapshot cache: probes and App start and stop are inputs. Whether the process runs inside the App, and the advice printed for that case, is not modelled.
- JSON, JWT and time parsing, digests: the model starts from decoded identities, refresh times as optional integers, and file contents that are a bundle, empty or something else.
- Unicode case folding and trimming: strings are compared after ASCII lower-casing and trimmed of ASCII blanks.
- Writing a file is one atomic step; a journal write or removal and a record save that fails has no effect, since the rename is last. Directory creation and permissions are not modelled.
- Reading state.json fails only if it is missing or unreadable, which reads as the defaults, as the code has it.
- Reading a slot fails only if its content is damaged; metadata other than the revision is not modelled.
- Client rewrites inside one switch happen at one point, after the App start; not inside a rollback, which reads without checking again.
- Account references, account ids, new identifiers and plan expiry are inputs; identifiers drawn by a run are assumed new. Creation times are modelled as the listing order, newest first.
- Plan texts, presence tables, envelopes, logs, messages, masked addresses and the user codes shown during a login.
- The older operation records and the Python prototype, apart from the record a pending switch leaves; records written by an older version are not parsed.
- Demo logins, and the login command itself: its codes, its failure and its bundle are inputs.
- Patching an account, status views, archived accounts and diagnostics: reads and label changes without further rules.
- Client discovery, path translation, the HTTP server, sessions, the web page, the terminal menu and the installer.
- Reading under the Shell Command Language stops at expansions, operators, patterns and comments, which quoted paths never contain unquoted.
