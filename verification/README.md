# Verification of dicode's approval gate and its neighbours

A Dafny model of the parts of dicode whose correctness is a matter of protocol,
state or bookkeeping rather than of straight-line code, with proofs. Run
`dafny verify dfyconfig.toml`.

**The approval gate** decides whether a task may run. `GateModel` is a small-step
system: one step per critical section of Admit, approve, Forget and FireGuard, one
program counter per goroutine, and a ghost history of events. `GateHistory` says
what a lawful history is, `GateInvariant` proves every run lawful, and `GateSafety`
draws the guarantees from lawfulness alone. `GateSequential` shows what an
uninterrupted call comes to, `GateObject` is the gate as the object the daemon holds,
proved against the same tables, `GateInterleavings` exhibits orders that really occur,
`GateRemoval` says when a task can be recorded without a new Admit, and `GateFrames`
says what each step leaves alone. `Lock` is dicode.lock with its
three file versions and signatures, `Sessions` the first-run bootstrap across
restarts, `Provenance` where the records of a long history come from and
`FireProvenance` what that means for the tasks that run, `Tokens` the
approve links, `TokenApproval` the links together with the gate, `Markers` the cached
decorations of a version and `Generations` the pending table that holds them.

**Around it:** `LogShutdown` (the per-run log buffer and the order in which Stop winds
the server down), `Retention` and `InputRetention` (deleting stored inputs and resume
states, and what may interleave with that), `Backfill`
(the root of every run), `MergePatch` (editing dicode.yaml), `AuditPaging` (keyset
paging), `Gateway` (the route table), `Framing` (the socket protocol) and `Wizard`
(the resume wizard). `Records`, `TaskIds`, `Strings` and `Picked` hold what they share.

Code that changes fields in place is a class or a method with loops, proved against a
function of the old state; theorems about all runs are lemmas over sequences of steps.
Calls into the world outside (the hash of a directory, an arm callback, a file write, a
storage task, what a schema accepts) are parameters chosen freely at each step.

## What did not hold

Where the code does less than its documentation or the obvious reading promises, the
code is modelled and the exact condition is proved:

- Startup's comment says a crash during bootstrap is followed by another bootstrap
  (pkg/daemon/daemon.go:731-733). It is exactly when no record had reached the disk
  (`Sessions.CrashDuringBootstrap`).
- The comments promise that a present lock implies a present marker and that losing
  either alone cannot reset the gate (pkg/daemon/daemon.go:681-684, 742-747). A lost
  database marker is restored exactly when the policy is on, the lock does not carry the
  flag and the write works (`Sessions.MarkerBackfill`), so two losses with a restart
  between them do reset it (`Sessions.SeparateLossesReenter`); one loss alone never does.
- An approval that reports an error can still take effect at the next Admit: exactly when
  it failed at the save or at the arm, and then for the content it had read and for the
  content whose record it replaced (`GateSequential.FailedApprovalTakesEffectExactly`,
  `GateSequential.FailedApprovalReleasesExactly`).
- FireGuard does not agree with Admit on an untrusted task without a hash that the
  bootstrap window armed, and on no other (`GateSequential.AdmitAndFireAgree`,
  `GateSequential.SeededWithoutHashIsVetoed`).
- Stop does not wait for a connection accepted but not yet counted, nor for lines logged
  after the flusher left on a cancelled context; a line can be lost exactly then
  (`LogShutdown.LossExactlyAtRisk`).
- A removed task does not always go through the gate from scratch: without a new Admit it
  can be recorded again if and only if an approve call that read its entry is yet to write
  the lock (`GateRemoval.ForgottenForGoodExactly`; from any state of the gate,
  `GateRemoval.RecordableExactly`; one such run, `GateInterleavings.ForgottenYetRecorded`).
- An unsigned version 1 lock is accepted whoever wrote it, and sealed
  (`Provenance.PlacedVersion1IsSealed`); every other record has a source in some session
  (`Provenance.RecordsHaveASource`).
- mergeMap keeps nulls inside an object that lands on a non-map (`MergePatch.MergeIsRfc`),
  and content under non-string keys on the way to an override is dropped, which is
  exactly when an override is not local (`MergePatch.PutAtIsLocalExactly`).
- A timestamp not in the fractional layout makes the cursor skip or repeat rows
  (`AuditPaging.CursorResumesExactly`); a cursor between milliseconds is truncated
  (`AuditPaging.CursorRoundTrip`).
- InputStore.Delete ignores a failure the storage task reports in its reply, unlike
  ResumeStateStore.Delete, so the row is cleared and the blob stays
  (`Retention.Server.DeleteInput`).
- delete_input and delete_inputs can orphan the blob of an input: from any reachable state
  a handler still can if and only if the key is yet to be entered for a blob that is or
  can be stored, or it is entered and the handler read the row before that
  (`InputRetention.OrphansExactly`). On the rows the sweep is offered it cannot
  (`InputRetention.OfferedInputsAreSafe`).
- delete_resume_state can clear the state of a suspended run from under it: if and only if
  the run is yet to be inserted or is running when the handler reads it, or has suspended
  since (`Retention.LiveStateLostExactly`). On the rows the sweep is offered it cannot.

## Model

| member | source | states |
|---|---|---|
| GateInvariant.StepKeeps | pkg/approval/gate.go:286-402 | every critical section of Admit, approve, Forget and FireGuard, every edit of a task directory and the end of the bootstrap window keeps the state equal to the fold of the event history and appends only an event that the history justifies |
| GateInvariant.Preserved | pkg/approval/gate.go:286-402 | the same over every run: any number of goroutines, any interleaving, any length |
| GateSafety.FireSafety | pkg/approval/gate.go:740-785 | in every run, a fire FireGuard lets through for an untrusted task took its hash from live content of the handle that was admitted when the call looked it up, started while the task was not pending, matched the lock record standing at that step, and that record is the startup one, an operator's approval of a pending entry with exactly this hash, or a seeding arm decided before the window closed |
| GateSafety.UntrustedGrant | pkg/approval/gate.go:483-516 | a lock record of an untrusted task comes from an approve call that read a pending entry with exactly that hash, observed on disk by the Admit that published it, or from bootstrap seeding; never from an empty hash |
| GateSafety.RecordOrigin | pkg/approval/lock.go:278-301 | a record in force is the startup one or the last grant's, with no rewrite or removal since |
| GateModel.TrustedIsPolicyArm | pkg/approval/gate.go:772-785 | trusted holds exactly on the hash-independent arms of Admit, pinned builtin included |
| TaskIds.SourceOfId | pkg/approval/gate.go:793-801 | the source of a namespaced id is what precedes its first separator |
| GateSafety.HeldUntilReleased | pkg/approval/gate.go:335-378 | a published version stays pending, and every FireGuard call that starts is vetoed, until something releases it |
| GateSafety.ApproverReleasesOwnVersion | pkg/approval/gate.go:497-516 | an approve call removes a pending entry only when the latest published version has the hash it read and wrote to the lock, so a newer version stays held |
| GateSafety.ReconcilerReleaseCause | pkg/approval/gate.go:313-333 | the reconciler withdraws a pending entry only on Forget, on an auto-approve arm, or because the lock held the very hash it had just observed on disk |
| GateSafety.ForgottenUntilReadmitted | pkg/approval/gate.go:520-530 | after Forget dropped the handle, a FireGuard call starting later lets the task run only after a new Admit, whatever a stale approval re-recorded or re-armed |
| GateSafety.NotifiedOncePerVersion | pkg/approval/gate.go:323-378 | between two hook calls for one version of a task the version was released or a different one published |
| GateSafety.NotifiedExactly | pkg/approval/gate.go:335-378 | in every run the hook is called exactly for publishes that find no pending entry, one with another hash, or one with another enabled flag, that flag being what the preview gives for the handle, else its own; once each, before the reconciler's next task |
| GateSafety.SnapshotIsOneGeneration | pkg/approval/gate.go:605-635 | a pending entry any reader copies is one published generation, whole: hash observed on disk for its handle, enabled flag the resolved one of that handle |
| GateSafety.PendingIsLatest | pkg/approval/gate.go:345-378 | what is pending is the last version published, not released since |
| GateSequential.StepsOfAdmit | pkg/approval/gate.go:286-402 | an uninterrupted run of the reconciler's steps has the effect of one atomic Admit plus the disarm of OnRegister |
| GateSequential.StepsOfForget | pkg/approval/gate.go:520-530 | likewise for Forget |
| GateSequential.StepsOfApprove | pkg/approval/gate.go:483-516 | likewise for approve, on every one of its exits |
| GateSequential.StepsOfFire | pkg/approval/gate.go:740-785 | an uninterrupted FireGuard lets the task through exactly when the atomic reading of it does, and moves nothing |
| GateSequential.ArmsExactly | pkg/approval/gate.go:305-333 | when Admit arms: an unpinned builtin, a trusted task or source, the gate off, this very non-empty hash recorded, or the window open |
| GateSequential.NotifiesExactly | pkg/approval/gate.go:325-345 | when it calls the hook: exactly for a task it does not arm that is not pending, or pending with another hash or another enabled flag, the flag previewed if there is a preview |
| GateSequential.AdmitExactly | pkg/approval/gate.go:286-402 | what every table holds afterwards, field by field: the record with hash, time, origin and commit, the pending entry with commit, remote and the base taken from the lock, the handle and the arm |
| GateSequential.ApproveExactly | pkg/approval/gate.go:483-516 | which refusal is given when, and what each outcome leaves in every table |
| GateSequential.FireAllowsExactly | pkg/approval/gate.go:740-785 | what a fire needs: not pending, and trusted or admitted with a live, non-empty hash that is the one recorded |
| GateSequential.AdmitAndFireAgree | pkg/approval/gate.go:305-401 | right after Admit on unchanged content, FireGuard returns nil exactly when Admit armed the task, except for an untrusted task without a hash that bootstrap armed |
| GateSequential.SeededWithoutHashIsVetoed | pkg/approval/gate.go:305-401 | every untrusted task met without a hash while the window is open is such a case: armed, and vetoed at fire time |
| GateSequential.ApprovedContentOnly | pkg/approval/gate.go:483-516 | approving a pending untrusted task lets it run exactly when the call succeeded and its content still has the approved hash |
| GateSequential.TokenBoundApproval | pkg/approval/gate.go:451-457 | a hash-bound approval acts on no version but the one it names, and on no other task |
| GateSequential.FailedApprovalTakesEffectExactly | pkg/approval/gate.go:483-516 | an approval that reports an error changes whether the next Admit arms some content, and whether it can run then, if and only if it failed at the save or at the arm, no policy or window decides instead, and the content is the version it read or else the one whose record it replaced |
| GateSequential.FailedApprovalReleasesExactly | pkg/approval/lock.go:278-290 | so content that would have been held runs after the next Admit exactly when the failed call got as far as the lock and had read that very version |
| GateSequential.ForgetClears | pkg/approval/gate.go:520-530 | after a Forget with nothing in flight no table mentions the task, and only policy can let it run |
| GateRemoval.RecordableExactly | pkg/approval/gate.go:483-530 | from any state of the gate, a task that is not admitted anew can come to have a record if and only if it has one, a version of it with a hash waits for approval, an approve call has read one and is yet to write the lock, or the reconciler is admitting one |
| GateRemoval.ForgottenForGoodExactly | pkg/approval/gate.go:518-530 | in every run: once Forget has removed the record the task can have one again without a new Admit if and only if an approve call that read its entry is yet to write the lock |
| GateSafety.RerecordedOnlyBy | pkg/approval/gate.go:518-530 | and which grant put such a record back: after Forget removed it, and with no version published since, the record standing is that of an auto-approve arm or of an approve call that read the entry before it was withdrawn |
| GateSequential.ReadmitIsQuiet | pkg/approval/gate.go:335-378 | re-admitting unchanged held content renews the entry and calls no hook |
| GateObject.Gate.Admit | pkg/approval/gate.go:286-402 | the method leaves exactly the tables the atomic Admit leaves and returns armed as specified; the hook runs exactly when the task is held and not already pending with this hash and this resolved enabled flag |
| GateObject.Gate.Approve | pkg/approval/gate.go:483-516 | tables of every exit, which refusal is given when, and the enabled flag of the very entry it read |
| GateObject.Gate.Register | pkg/daemon/daemon.go:787-821 | OnRegister: Admit, then disarm exactly when it did not arm |
| GateObject.Gate.Unregister | pkg/daemon/daemon.go:822-825 | OnUnregister: all tables cleared of the task |
| GateObject.Gate.FireGuard | pkg/approval/gate.go:740-785 | vetoes exactly as specified, changing nothing |
| GateObject.RegisterThenFire | pkg/approval/gate.go:286-402 | on the objects themselves: a just registered task fires exactly when it was armed and is trusted or has a hash |
| GateInterleavings.ArmedWhilePending | pkg/approval/gate.go:497-502 | for every gated task there is a run that leaves a newer version pending and the task armed: pending does not imply disarmed |
| GateInterleavings.PendingThoughApproved | pkg/approval/gate.go:335-378 | for every gated task there is a run that publishes a version already in the lock; it is vetoed until the next Admit clears it |
| GateInterleavings.ForgottenYetRecorded | pkg/approval/gate.go:483-530 | for every gated task there is a run in which such an approval puts the record of a removed task back, and the same content added again is armed without review |
| Lock.Lock.LoadSigned | pkg/approval/lock.go:105-180 | the branches of LoadSignedLock compute, in memory and on disk, what the three file versions and the MAC call for |
| Lock.Lock.Save | pkg/approval/lock.go:340-367 | the file is replaced whole by a signed version 3 content (unsigned version 1 without a key), or left alone |
| Lock.Lock.Record | pkg/approval/lock.go:278-290 | memory keeps the record even when the save fails; at an unchanged hash time, origin, commit and file stay as they are, and an empty hash is refused |
| Lock.Lock.Remove | pkg/approval/lock.go:293-301 | memory drops the record even when the save fails |
| Lock.Lock.MarkBootstrapped | pkg/approval/lock.go:324-337 | the flag is rolled back when it cannot be saved |
| Lock.LoadAfterSave | pkg/approval/lock.go:105-245 | a load after a save returns the same records and flag untampered, without rewriting the file |
| Lock.LoadedRecords | pkg/approval/lock.go:105-180 | loading keeps all records of exactly the genuine contents (unsigned version 1, or validly signed version 2 or 3) and none of any other; the flag is true only under a version 3 signature that covers it |
| Lock.LoadFails | pkg/approval/lock.go:105-180 | loading fails exactly on a file that cannot be read or parsed, or on a genuine older one that cannot be rewritten |
| Lock.UnsignedLoadKeepsAll | pkg/approval/lock.go:118-126 | a daemon without a key takes every record of any file that parses, signed or not, and no flag |
| Lock.UpgradeFixpoint | pkg/approval/lock.go:130-165 | one load upgrades the file; the next loads the same memory and rewrites nothing |
| Lock.SignatureBinds | pkg/approval/lock.go:194-245 | two genuine files with one signature have the same key, version and records, and in version 3 the same flag |
| Lock.EmptyCommitSignsAsAbsent | pkg/approval/lock.go:46-57 | a record with an empty commit signs the same as one without the field |
| Sessions.SetupApprovalGate | pkg/daemon/daemon.go:620-785 | startup, in its order of reads and writes, leaves the lock, file, marker and window the specification of startup gives |
| Sessions.CloseBootstrapWindow | pkg/daemon/daemon.go:751-768 | the timer of the window, on gate, lock and database: mode off, then both markers, each written or not on its own; nothing when the window was closed already |
| Sessions.RecordInSession | pkg/approval/lock.go:278-290 | a grant of the running daemon, on its lock, is the recording event of a history |
| Sessions.RemoveInSession | pkg/approval/lock.go:293-301 | likewise a removal |
| Sessions.BootstrapsExactly | pkg/daemon/bootstrap.go:72-74 | a startup opens the window exactly when the policy is on and neither a lock file nor the database marker exists; the lock's own flag cannot matter |
| Sessions.StartExactly | pkg/daemon/daemon.go:725-785 | what a startup makes of what it loaded: when it is refused, when the window opens, and that flag and marker change only by adopting a lock that has neither, each where its own write works |
| Sessions.LockLossFailsClosed | pkg/daemon/daemon.go:740-752 | with the database marker set, no history that keeps the database re-enters bootstrap, whatever happens to the lock |
| Sessions.DbLossFailsClosed | pkg/daemon/daemon.go:740-752 | with a lock file present, no history that keeps it does, whatever happens to the database |
| Sessions.FirstRunIsFinal | pkg/daemon/daemon.go:748-768 | after a first run whose window closed with both writes done, a second bootstrap needs both the lock and the database lost |
| Sessions.AdoptionIsFinal | pkg/daemon/daemon.go:769-780 | the same after a startup adopted a lock without a marker |
| Sessions.MarkerBackfill | pkg/daemon/daemon.go:742-780 | a startup that finds a lock leaves the database marker set if and only if it was set, or the policy is on, the lock does not carry the flag and the write works |
| Sessions.SeparateLossesReenter | pkg/daemon/daemon.go:681-684 | so losing the database, restarting, and then losing the lock does re-enter bootstrap, for every signing daemon and every set of records |
| Sessions.CrashDuringBootstrap | pkg/daemon/daemon.go:731-733 | a crash before the window closes is followed by another bootstrap exactly when no record had reached the disk |
| Provenance.RecordsHaveASource | pkg/approval/lock.go:105-301 | over every history of restarts, crashes and replaced files in which no signature is forged (old ones may be reused), each record in memory was written by some session, came with the file of the start, or came from an unsigned version 1 file someone placed |
| Provenance.PlacedVersion1IsSealed | pkg/approval/lock.go:130-145 | any records placed in such a file are loaded untampered and sealed with the daemon's own signature |
| FireProvenance.EveryFireIsBacked | pkg/approval/gate.go:740-785 | over whole histories of sessions, gate and lock together: a fire of an untrusted task matched a hash an operator approved while it was pending or that was seeded, in this session or an earlier one, or that an earlier session recorded because it trusted the task, or that came with the first lock file or a placed unsigned version 1 file |
| Tokens.TokenStore.Mint | pkg/approval/token.go:58-79 | a token is stored for a day with its task and hash; a collection that works leaves no expired row and takes no other, and no call takes anything else; which call is refused |
| Tokens.TokenStore.Redeem | pkg/approval/token.go:100-119 | the binding is given exactly for a stored token not past its expiry; the row goes with the first attempt that finds it, expired or not |
| Tokens.TokenStore.Peek | pkg/approval/token.go:85-94 | answers as a redemption at the same moment would and consumes nothing |
| Tokens.RedeemJustified | pkg/approval/token.go:100-119 | over every sequence of calls, a successful redemption carries the task and hash its token was minted for, at most the TTL ago, and no attempt had reached the token since |
| Tokens.RedeemedOncePerMint | pkg/approval/token.go:100-119 | two redemptions of a token have a mint of it between them |
| Tokens.RedeemSucceedsExactly | pkg/approval/token.go:58-148 | under a monotone clock a redemption succeeds if and only if the token was minted with that binding within the TTL and no attempt has reached it |
| Tokens.CollectionOnlyHidesExpired | pkg/approval/token.go:69-71 | compared with the same calls without collection, the only difference in any answer is "invalid" for "expired" |
| TokenApproval.LinkGrantsWhatItWasMintedFor | pkg/webui/approval.go:363-385 | store and gate interleaved in any way: the record of a token-bound approval comes from the one operation that started its approve call and named its task and hash; if that was a link, they are what its token was minted for, redeemed within its TTL and on the first attempt |
| TokenApproval.LinkGrantsAreSingleUse | pkg/webui/approval.go:363-385 | two records written through links come from two redemptions |
| GateFrames.OneGrantPerRead | pkg/approval/gate.go:483-500 | in every run of the gate no two grants come from one read of a pending entry |
| TokenApproval.GateRuns | pkg/webui/approval.go:363-385 | the gate's part of a combined run is a run of the gate, so all its theorems apply |
| LogShutdown.Append | pkg/ipc/server.go:1804-1840 | bufferLog splits the lines in order, none dropped: a buffer of 1000 goes first, one that reaches 50 is a batch; below the flush size it stays below it and never takes the cap branch |
| LogShutdown.LogBuffer.BufferLog | pkg/ipc/server.go:1804-1840 | unknown levels become info; the line is buffered and full batches are written |
| LogShutdown.LogBuffer.FlushBatch | pkg/ipc/server.go:1863-1888 | all or nothing in bulk, otherwise every row whose own insert works |
| LogShutdown.StoredExactly | pkg/ipc/server.go:1863-1888 | of a batch exactly all rows are stored when the transaction commits, and otherwise exactly those whose own insert works |
| LogShutdown.WhitelistedExactly | pkg/ipc/server.go:1805-1811 | the four levels are kept as they are, and only they; anything else becomes info |
| LogShutdown.LogBuffer.FlushLogsNow | pkg/ipc/server.go:1847-1858 | the buffer is emptied and its lines written by the same rule |
| LogShutdown.Conservation | pkg/ipc/server.go:1804-1911 | over every run of accept loop, handlers, flusher and Stop, each line passed to bufferLog is stored, given up on, buffered or in flight, exactly as often as it was passed |
| LogShutdown.EveryRun | pkg/ipc/server.go:296-331 | what each stage of Stop guarantees about handlers, flusher and buffer holds in every interleaving |
| LogShutdown.StopFlushesEverything | pkg/ipc/server.go:296-331 | when Stop returns with no connection in hand at the end of its wait, all that is not stored is in the buffer, fewer than 50 lines; and nothing is, context cancelled or not, if the flusher was still live then |
| LogShutdown.NoLogLost | pkg/ipc/server.go:296-331 | with a working database the stored lines are then exactly the lines passed in |
| LogShutdown.LateHandlerBound | pkg/ipc/server.go:458-476 | in every other case at most one late connection is served and fewer than 100 lines are outstanding when Stop returns |
| LogShutdown.CapNeverReached | pkg/ipc/server.go:1819-1839 | the 1000-entry cap branch is never taken in any run |
| LogShutdown.LossExactlyAtRisk | pkg/ipc/server.go:296-331 | from every reachable state there is a way for Stop to return with a line lost, the database working, if and only if someone Stop will not wait for, or who outlives the flusher, can still log, or the flusher's last drain has left lines behind; with and without cancellation |
| LogShutdown.LateConnectionExactly | pkg/ipc/server.go:458-476 | past the barrier, with the context left alone, a line can be lost if and only if a connection sits between Accept and acceptMu |
| LogShutdown.EarlyFlusherExactly | pkg/ipc/server.go:1890-1911 | once the flusher has left, a line can be lost if and only if the buffer is not empty, a handler has not finished or a connection can still come |
| Backfill.RunsTable.BackfillRootRunID | pkg/db/sqlite.go:416-453 | the loop, stopping early when a pass changes nothing, ends where all 100 passes would |
| Backfill.PassesReach | pkg/db/sqlite.go:424-446 | after pass k exactly the unset rows within k hops of a known root are resolved, to the root an ancestor walk of k hops finds |
| Backfill.BackfillIsAncestorWalk | pkg/db/sqlite.go:416-453 | on any parent graph, told from the parent and root columns: no root left unset, set roots and parents untouched; a row whose chain of parents, at most 100 hops, ends at a row with a root gets that root, one whose chain ends at an unset row with a NULL or empty parent gets that row, all others themselves |
| Backfill.BackfillIsIdempotent | pkg/db/sqlite.go:404-453 | a second run changes nothing |
| Backfill.ClosedGroupSelfRoots | pkg/db/sqlite.go:447-451 | rows on or leading only into a parent cycle each root themselves |
| MergePatch.MergeMap | pkg/config/persist.go:211-226 | whatever order the patch is ranged over in, the result is the same merge |
| MergePatch.MergeIsRfc | pkg/config/persist.go:211-226 | the merge is MergePatch of section 2 of RFC 7396 if and only if every patch object that lands on something other than a map is free of nulls |
| MergePatch.PruneEmptyMaps | pkg/config/persist.go:169-189 | deleting from the map while ranging over it ends at the pruned tree |
| MergePatch.PruningKeepsContent | pkg/config/persist.go:169-209 | pruning keeps every leaf and adds none, leaves no empty map reachable through maps, and is idempotent |
| MergePatch.ConfigFile.MergeTaskOverride | pkg/config/persist.go:36-120 | which refusal in which case, each leaving the file alone; otherwise the document is the old one with the addressed override merged, pruned and its emptied containers dropped |
| MergePatch.Override | pkg/config/persist.go:62-103 | walking down, merging, pruning and putting back level by level replaces the map at the end of the override path and drops the containers emptied on the way |
| MergePatch.PutAtIsLocalExactly | pkg/config/persist.go:74-160 | all content outside the addressed path is kept if and only if no container on the way has content under a key that is not a string |
| MergePatch.LostOutside | pkg/config/persist.go:136-160 | otherwise there is a path outside that held a value and holds none afterwards |
| MergePatch.OverrideContent | pkg/config/persist.go:36-120 | the written document has all the old content outside the path, exactly under that condition, and the content of the merge below it |
| MergePatch.OverrideShape | pkg/config/persist.go:74-103 | no empty map below the path; the override, its entries and the overrides block are there exactly when they hold something, the containers above always, and everything next to the path is as it was, empty maps included |
| AuditPaging.Store.Query | pkg/audit/audit.go:147-231 | in columns: of all rows with the target, actor and type asked for, beyond the cursor if there is one, in (ts, id) order up or down, the page is the run of at most 1000, by default 100, that starts at the offset, which counts without a cursor only |
| AuditPaging.Store.Append | pkg/audit/audit.go:111-131 | id and timestamp are filled in when empty and the row is in the fractional layout; a taken id changes nothing |
| AuditPaging.CursorResumesExactly | pkg/audit/audit.go:175-207 | resuming after a row selects exactly the rows behind it if and only if the row's timestamp is in the fractional layout |
| AuditPaging.WalkIsExactlyOnce | pkg/audit/audit.go:147-235 | following CursorOf(last) over tables that change between pages returns rows in order, none twice, and every selected row present throughout once a short page ends the walk |
| AuditPaging.WalkProgresses | pkg/audit/audit.go:147-235 | a page is empty exactly when nothing selected is left behind the cursor; any other page moves the cursor on |
| AuditPaging.WalkOfAFixedTable | pkg/audit/audit.go:147-235 | on an unchanging table the pages put together are the unpaged list, in at most one page more than there are rows |
| AuditPaging.OffsetPages | pkg/audit/audit.go:198-209 | pages at offsets 0, n, 2n, ... put together are the list up to where they end, and once one is short the whole of it |
| AuditPaging.LessIsDictionary | pkg/audit/audit.go:193-198 | the order of the stored texts is that of a dictionary |
| AuditPaging.CursorRoundTrip | pkg/audit/audit.go:239-267 | a token decodes to its cursor if and only if the cursor is zero or at a non-zero whole millisecond, ids containing the separator included; otherwise the time is truncated or the token refused |
| AuditPaging.DecodeExactly | pkg/audit/audit.go:248-267 | a non-empty token without a separator is refused; otherwise what precedes the first separator is the timestamp and all the rest the id |
| AuditPaging.TokenOfARow | pkg/audit/audit.go:235-267 | a consumer that keeps its position as a token walks on from the same row |
| Gateway.Gateway.Register | pkg/ipc/gateway.go:46-59 | patterns stay unique and longest first, and the table is the old map with the pattern set, whatever the sort does with equal lengths |
| Gateway.Gateway.Unregister | pkg/ipc/gateway.go:62-71 | the table is the old map without the pattern |
| Gateway.Gateway.Select | pkg/ipc/gateway.go:75-92 | the scan finds the handler of the longest matching registered pattern, or none when nothing matches |
| Gateway.MatchesAtBoundary | pkg/ipc/gateway.go:100-105 | a pattern matches exactly the paths it is a prefix of at a segment boundary |
| Gateway.LongestIsUnique | pkg/ipc/gateway.go:73-83 | there is never more than one longest match |
| Gateway.DispatchIsAFunction | pkg/ipc/gateway.go:73-92 | dispatch is determined by the map of patterns alone, not by registration order |
| Gateway.ExactPatternWins | pkg/ipc/gateway.go:42-59 | an exact pattern takes precedence over every prefix |
| Framing.Conn.WriteMsg | pkg/ipc/conn.go:19-36 | an oversized payload emits no byte; otherwise the frame is written, or what fits of it before the connection breaks |
| Framing.Conn.ReadMsg | pkg/ipc/conn.go:39-59 | result and unread rest for every stream, well-formed or not |
| Framing.HeaderRoundTrip | pkg/ipc/conn.go:28-29 | the four bytes, least significant first, and the length determine each other |
| Framing.ReadsExactlyFrames | pkg/ipc/conn.go:39-59 | a message is read if and only if the stream starts with its frame and its size is in range |
| Framing.StrictPrefixIsRejected | pkg/ipc/conn.go:39-55 | a frame cut off anywhere is rejected, by header or by body |
| Framing.RefusedExactly | pkg/ipc/conn.go:39-59 | each refusal from the length in the header: none, zero, over 8 MiB, or more than the stream holds, and what is left to read |
| Framing.FramesRoundTrip | pkg/ipc/conn.go:19-59 | concatenated frames read back as exactly the list of payloads, and no other stream does |
| Framing.Conn.Exchange | pkg/ipc/conn.go:19-59 | after any sequence of writes the reader gets every payload within the cap, in order, oversized ones in between refused |
| Framing.DeliverableExactly | pkg/ipc/conn.go:19-36 | what arrives are the payloads of at most 8 MiB, in the order written |
| Wizard.ParseFields | cmd/dicode/follow.go:132-149 | fails exactly on an argument without a name or a repeated name; otherwise the pool holds what was given |
| Wizard.FieldParses | cmd/dicode/follow.go:132-149 | an argument is cut at its first "=": the name without the blanks around it, refused when nothing is left, and the value as it stands |
| Wizard.PrefillPool.Take | cmd/dicode/follow.go:153-162 | a value is handed out once |
| Wizard.Reader.PromptResumeInput | cmd/dicode/main.go:1217-1276 | the nested loop asks the properties in turn, each where the one before left the stream, up to the first without an answer; the answers are the last ones given for each name |
| Wizard.AskIsDecided | cmd/dicode/main.go:1239-1273 | an answer is decided by the first line that is not refused, a line being refused when it does not convert, or is blank where an answer is required and there is no default; it is the default exactly when that line is blank, else what that very line converts to; a skip needs a blank line, no default and an optional property; the rest of the stream starts right after it |
| Wizard.RoundIsDecided | cmd/dicode/main.go:1217-1276 | the same over a whole form |
| Wizard.DecidedOnce | cmd/dicode/main.go:1239-1273 | which line that is, the answer and the rest are determined by the stream |
| Wizard.AnswersCover | cmd/dicode/main.go:1217-1276 | on success every required property asked for has a value, and each value is its property's default or a conversion of some text |
| Wizard.RoundProgresses | cmd/dicode/follow.go:448-470 | a round of prompting uses up input or comes to what it comes to at the end of input, which is what makes the retry loop end on every stream |
| Wizard.TakingIsSound | cmd/dicode/follow.go:374-387 | a step takes from the pool exactly the answers it declares that were given and not used up, converted; one that does not convert aborts |
| Wizard.TakingFails | cmd/dicode/follow.go:374-387 | a step is refused for a pre-supplied answer only when one that was given and not used up does not convert |
| Wizard.UnansweredInOrder | cmd/dicode/follow.go:436-446 | prompted for are exactly the properties without a pre-supplied answer, in the order of the form |
| Wizard.RoundsAreSound | cmd/dicode/follow.go:432-470 | the retry loop submits only input the schema accepts, and gives up only on an input it came to twice in a row |
| Wizard.CollectedIsSound | cmd/dicode/follow.go:371-470 | submitted input validates, keeps the pre-supplied answers as taken and completes the required properties; non-interactively nothing is read and a gap is named; the end of input at a confirmation is never consent |
| Wizard.UnpromptedExactly | cmd/dicode/follow.go:388-433 | every exit of a step that prompts for nothing: complete input is submitted when the schema accepts it, a gap is named without interaction, and the bare form is confirmed exactly by a line that ends |
| Wizard.PromptedExactly | cmd/dicode/follow.go:434-470 | every other step prompts in rounds, each starting where the one before ended: it submits the first accepted input, gives up on one that came twice in a row, and ends early only on a round without an answer or input that does not marshal |
| Wizard.PromptUntilAccepted | cmd/dicode/follow.go:447-470 | the loop, which terminates on every input stream, computes the rounds of prompting until the schema accepts or one repeats |
| Wizard.CollectStepInput | cmd/dicode/follow.go:371-470 | on pool and reader, outcome, rest of the input and what is used up, on every exit |
| Wizard.WalkedIsSound | cmd/dicode/follow.go:513-590 | over all steps, each submitted step took only what no step before had taken and submitted sound input, and what is used up is what was taken, up to the step that ended the walk |
| Wizard.WalkedStepByStep | cmd/dicode/follow.go:513-590 | each step sees the stream where the one before left it, without the lines typed on the way, and the walk ends with what the first step that submits nothing came to |
| Wizard.Follow | cmd/dicode/follow.go:513-590 | the loop over one reader and one pool computes that walk, and reports as unused exactly the rest |
| Wizard.TakenAtMostOnce | cmd/dicode/follow.go:120-162 | no pre-supplied answer reaches two steps |
| Retention.Server.DeleteInput | pkg/ipc/server.go:953-991 | the columns are emptied only when the blob delete reported no error, nothing else of the table changes, no later sweep is offered the row, and the blob outlives the cleared row if and only if no store is wired or the storage task reported its failure in its reply |
| Retention.Server.DeleteInputs | pkg/ipc/server.go:993-1067 | exactly the blobs whose delete removed them go, exactly the rows without a failed delete are cleared, chunk by chunk, and failed rows are named and offered to the next sweep again; with no failure hidden in a reply no row loses its blob's key |
| Retention.Server.ClearRunInputs | pkg/registry/registry.go:924-943 | every chunk is tried whatever became of the others, and success means all were cleared |
| Retention.Server.DeleteResumeState | pkg/ipc/server.go:1087-1138 | the answer and both tables on every exit: the two columns are emptied, and nothing else changed, exactly when the run is not suspended and its blob, if any, is really gone, and then no later sweep is offered the row |
| Retention.RunVerbs | pkg/ipc/server.go:953-1138 | the three verbs called one after the other in any sequence, among runs that store inputs, suspend and end, with arbitrary delete failures (those of inputs reported as such): no blob of either kind is left that no row leads to, a suspended run keeps its resume columns and its stored state, and what a call answered as cleared is offered to no later sweep until it is stored again |
| Retention.OfferedExactly | pkg/registry/registry.go:817-1024 | which rows a sweep is offered, in columns |
| Retention.StepsOfDeleteResumeState | pkg/ipc/server.go:1087-1138 | the steps of the verb, uninterrupted, leave rows and blobs as the method does, on every exit |
| InputRetention.StepsOfDeleteInput | pkg/ipc/server.go:953-991 | likewise for delete_input |
| InputRetention.OrphanedOnlyBy | pkg/ipc/server.go:953-1067 | with the statements of both verbs interleaved with each other and with runs storing their input, a step orphans a blob if and only if it clears a row that leads to it, and then its handler read the row before the key was entered or was told of a delete which did not happen |
| InputRetention.OrphansExactly | pkg/registry/registry.go:844-849 | from every reachable state and for every handler, begun or not: a continuation in which its clearing step orphans the blob exists if and only if the key is yet to be entered for a blob that is or can be stored, or it is entered and this handler read the row before that; with failed deletes hidden from it, if and only if the row leads to a stored blob or still will |
| InputRetention.OfferedInputsAreSafe | pkg/registry/registry.go:815-839 | so a row the sweep is offered, its key entered, is safe from every handler that had not read it before that and is told truly, whatever interleaves |
| Retention.OnlyAReadOfARunningRunTakesLiveState | pkg/ipc/server.go:1087-1138 | with its steps interleaved with suspensions, delete_resume_state reaches a suspended row only if it had read that row while the run was running |
| Retention.OfferedRowsHaveEnded | pkg/registry/registry.go:1004-1037 | a row the sweep is offered has ended and stays so, so the sweep is safe in every interleaving |
| Retention.LiveStateLostExactly | pkg/ipc/server.go:1087-1138 | from every reachable state and for every handler: a continuation in which its clearing step takes the offloaded state of a suspended run, which led to it before the step and does not after, exists if and only if the run is yet to be inserted, is running, or has suspended with this handler past its read |
| Retention.RunningRowLosesItsState | pkg/ipc/server.go:1087-1138 | such a continuation for any run not suspended yet and any key of its state |
| Markers.FileStatusesOf | pkg/approval/state.go:611-658 | the first caller's walk, failure included, is what every caller of a cache gets, whatever range it asks for; without a cache every caller walks |
| Markers.StatusExactly | pkg/approval/state.go:611-658 | a file is new when only the later commit has it, changed when both have it differently, and otherwise unmarked |
| Markers.InventoryOf | pkg/approval/state.go:545-590 | the listed files, each marked by that walk unless it is missing; no range, no walk |
| Markers.CommitCount | pkg/approval/gate.go:650-670 | the first caller's count is what every caller of a cache gets; nothing to count, no walk |
| Generations.PendingTable.Hold | pkg/approval/gate.go:345-378 | every publication installs an entry with caches of its own, unfilled |
| Generations.PendingTable.Render | pkg/approval/state.go:265-300 | rendering any copy of any published entry, replaced since or not: each marker is the true status between that entry's commits, new only for a file the approved base does not have and changed only for one both have differently, one walk serves all renders of the generation, and a marker is missing exactly when the walk failed or did not ask for the file |
| Generations.PendingTable.Count | pkg/approval/gate.go:650-670 | likewise the commit count of a copy is that of its own range or unresolved, from one walk |
| Generations.PendingTable.StateFor | pkg/approval/state.go:265-274 | hash and markers are those of one entry, read once |
| Generations.PendingTable.PendingApproval | pkg/approval/gate.go:699-711 | hash, range and count are those of one entry, read once |
| Generations.Session | pkg/approval/gate.go:147-187 | over any sequence of publications, withdrawals and renders of old and new copies, every marker is true for its page's generation, and pages and counts of one generation agree |

## Left out

- Hashing, HMAC, token randomness, base64 and the text of JSON and YAML: injective functions, trees and parameters stand for them. Digest injectivity is an explicit premise where it is needed.
- The calendar behind timestamps: the layout is a parameter that prints to the millisecond; years beyond 9999, which do not sort as text, are not covered.
- Git, file I/O, SQL, sockets and HTTP: atomic steps on state with freely chosen failures. File replacement is atomic, as writeFileAtomic intends.
- The trigger engine, registry and web UI: arm and disarm are updates of one map, schema validation is an uninterpreted predicate.
- Weak memory and data races: critical sections are atomic and interleave sequentially. FireGuard's and approve's goroutines are unbounded in number; the reconciler is one, as in the daemon.
- GateObject.Gate.Admit: atomic, one call at a time; the interleavings of its critical sections are the business of GateInvariant and GateSafety. Rearming the bootstrap timer is not modelled, the window may end at any moment.
- Sessions.SetupApprovalGate: reads and writes of the markers and the lock only; the policy tables, hooks, log lines and the timer's duration are not part of it.
- MergePatch.MergeMap: nested maps are values returned and stored back rather than shared references updated in place, so aliasing between a document and its sub-maps is not captured.
- LogShutdown.EveryRun: one call of Stop; a second concurrent Stop, the timestamps of lines (an insert of a single row takes a new one), the socket file and the handlers' other work are not modelled.
- Tokens.RedeemSucceedsExactly: the clock is monotone, as the property needs; without that premise only RedeemJustified and RedeemedOncePerMint hold.
- Tokens.CollectionOnlyHidesExpired: random tokens are taken to be distinct.
- AuditPaging.Store.Append: the database errors other than a taken id, and Prune, which the paging theorems cover as one of the arbitrary changes between pages.
- Wizard.CollectStepInput: what a property converts to and how answers are marshalled are parameters of a form; prompts, banners and the order of names in messages are not modelled. Blank means spaces, tabs and line ends.
- Wizard.Follow: the calls to the daemon between steps are cut to the list of steps reached; typed lines dropped between steps are whole lines.
- Retention.Server.DeleteInputs: a failed key query refuses the call as a whole; permission checks come before the modelled part. Without an input store every cleared key leaves its blob (`Retention.Server.DeleteInput` says so).
- InputRetention.OrphanedOnlyBy: with an input store wired. A blob whose storing itself failed half-way, so that its key was never entered, is not counted as orphaned by a sweep; a statement on many rows is one step per row.
- Generations.PendingTable.Render: the live directory listing is a parameter, and so are the trees of commits, which never change. Waiting for another renderer's walk is not modelled: a walk is one step.
- The file inventory and the rendering of a task's permissions, environment and triggers: straight-line and easy.
- Configuration defaults and validation, onboarding, metrics, command-line flags, host guards and capability tables: single branches and list membership.
