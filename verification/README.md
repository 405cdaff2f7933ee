# Isolated Browser runtime: verified model

A Dafny model of the isolated-Browser runtime of the OpenLinker plugin, with
proofs of what its protocols keep over whole runs. Each module follows one
component. Components that change state are classes whose methods are proved
against functions of the old state; what the component promises is then proved
about those functions, about histories of events, or about every interleaving. A
method that takes a whole run promises to be where that run's steps lead one by
one, so that what is proved of every run holds of the program.
`dafny verify dfyconfig.toml` checks the whole project.

| module | what it models |
|---|---|
| `CompletionObserver`, `ClaudeOutput` | two streaming scanners, against their whole-input definitions |
| `Aead`, `Payload`, `PayloadCipher` | the chunked encryption of stored Profiles over an ideal cipher, as functions and as the loops over readers and writers that may fail at any byte |
| `ProfileDisk`, `ProfileStore`, `ProfileHistory` | the Profile store on a disk that may stop at any system call; what survives; whole histories |
| `ProfileMigration` | the offline migration behind a marker |
| `BrowserLease`, `HumanControl` | the fenced Browser lease and its hand-over to a human |
| `SessionPruning`, `RootLocks` | bounded pruning of session files; the reference-counted keyed lock |
| `RequestHistory`, `RuntimeServer` | admission of requests and the accounting of blocked clicks |
| `BackendSelector` | the choice of a Browser backend, with fallback |
| `ProfileEngine` | upgrade-safe checkpoints over engines with different versions |
| `OpsObserver`, `ActionSample`, `Observation` | the single observer lease, the lock-free evidence of an action in flight, and observation streams |

How failures enter. A disk value is a cell: what the running system sees, and
the set of values that a crash may leave. A system call succeeds, fails without
effect, or is the last thing that happens; a plan or a `Luck` record says which,
and theorems quantify over all of them. A crash chooses any survivor. Backends,
processes, clocks, random numbers and the network are parameters in the same way.
Concurrent components are step machines whose steps are taken in any order.

Where the code does not keep a property, the model keeps the code and states
exactly when the property holds:

- A Profile's directory entry is not synced when the Profile is created or
  checkpointed, so a power cut can lose a Profile that is there if and only if the
  machine has not restarted since the creation (`ProfileHistory.Live`).
- Any read that fails while a Profile is opened counts as corruption. A load or a
  checkpoint moves a Profile that would have opened to quarantine if and only if
  one of its reads fails and the move does not (`ProfileStore.Store.Load`,
  `ProfileStore.Store.Checkpoint`, `ProfileHistory.ReadErrorLosesProfile`).
- The writer always uses the second storage contract, so a round trip succeeds if
  and only if it is read under that contract (`Payload.RoundTrip`).
- A controller transition whose per-Run file fails has already been activated but
  is rolled back in memory; the lease is then owing, and its next activation
  repeats the control epoch (`BrowserLease.RecordFailureRepeatsAnEpoch`).
- A lease whose close failed has given up the root and can still be used, so another
  Run may overtake it (`BrowserLease.OvertakenLeaseBreaksTheFence`,
  `BrowserLease.OvertakenLeaseGoesBack`). A persist takes its session out of order if
  and only if the session's last activation does not precede the persisted identity,
  which never happens to a lease that has not been overtaken
  (`BrowserLease.TornExactly`); until then all activations of the session are in
  order (`BrowserLease.EveryRunIsSound`, `BrowserLease.FencedPairs`). The next
  identity of a lease is above all earlier ones if and only if the session's last
  activation is not above the lease, which for a lease that has lost no epoch is to
  say that no other Run has activated the session since (`BrowserLease.NextIsNewer`).
  Where every close succeeds nobody is overtaken (`BrowserLease.TidyRunsRise`).
- A terminate that is handled while a pause is being set up makes the failing
  pause close a closed channel; that happens if and only if a pause fails after a
  command has crossed it (`HumanControl.EveryInterleavingIsLawful`,
  `HumanControl.RunIntoPanic`).
- The failure of an exhausted click budget validates if and only if a generation
  is known (`RuntimeServer.Server.ReserveRequest`), which it is not after a reset
  (`RuntimeServer.ExhaustedClickFailsValidation`).
- The generation of an engine may go back over a reset
  (`RuntimeServer.ResetForgetsGeneration`), and never while the Run, the place and
  the engine stay the same (`RequestHistory.GenerationsRise`).
- A stream that ends late takes down its successor if and only if the lease name
  was reused (`Observation.Observation.Exit`).
- A checkpoint request for a Profile whose upgrade is pending and not validated
  reports success although nothing is stored
  (`ProfileEngine.UnprovenIsNotStored`).
- A Profile that is pruned or quarantined and then made anew by an older engine
  starts from that engine's version; the version never decreases as long as the
  Profile stays in the store (`ProfileEngine.NeverGoesBack`).

## Model

| member | source | states |
|---|---|---|
| `CompletionObserver.WindowDecides` | cmd/openlinker-provider-launcher/codex_auth_proxy.go:365-372 | the marker occurs in all bytes read so far exactly if it did before or occurs in the kept suffix followed by the new chunk, for every marker and every split |
| `CompletionObserver.SuffixOfWindow` | cmd/openlinker-provider-launcher/codex_auth_proxy.go:369-372 | cutting the window keeps exactly the last marker-length-less-one bytes of the whole stream |
| `CompletionObserver.ResponseCompletionObserver.Read` | cmd/openlinker-provider-launcher/codex_auth_proxy.go:362-378 | after each read `completed` holds exactly if the marker occurs in everything delivered, and an incomplete end is reported once |
| `CompletionObserver.ResponseCompletionObserver.Finish` | cmd/openlinker-provider-launcher/codex_auth_proxy.go:385-401 | an incomplete stream is reported by the first ending only |
| `CompletionObserver.Observe` | cmd/openlinker-provider-launcher/codex_auth_proxy.go:356-401 | a whole body in any chunks: completion is whole-stream search, one report if incomplete, fewer bytes kept than the marker has |
| `ClaudeOutput.StreamMeetsReference` | packages/agent-adapters/agentexec/claude_output.go:34-88 | the incremental reader ends where splitting the whole output at newlines and stopping at the first bad or over-long record ends |
| `ClaudeOutput.ChunkingIsIrrelevant` | packages/agent-adapters/agentexec/claude_output.go:34-88 | for every split into writes the outcome is that of the whole-output definition and the buffer stays within the limit |
| `ClaudeOutput.PushAllBounded` | packages/agent-adapters/agentexec/claude_output.go:45-48 | the pending record never exceeds the limit |
| `ClaudeOutput.PushAllAfterError` | packages/agent-adapters/agentexec/claude_output.go:36-38 | after an error no further byte changes anything |
| `ClaudeOutput.ClaudeResultStream.Write` | packages/agent-adapters/agentexec/claude_output.go:34-58 | the loop over newlines is byte-by-byte processing; it reports all bytes written or none |
| `ClaudeOutput.ClaudeResultStream.Result` | packages/agent-adapters/agentexec/claude_output.go:77-88 | the unterminated last record is consumed; then an error of the stream is reported, and without one the result, or a missing result exactly if there is none |
| `ClaudeOutput.RunProcess` | packages/agent-adapters/agentexec/claude_output.go:21-88 | a process's writes and final result give the whole-output reference's result, error and observed records |
| `ClaudeOutput.LinesDecide` | packages/agent-adapters/agentexec/claude_output.go:60-88 | the first bad line decides the error, the last result event before it the result, and the other events before it, in order, are what is observed |
| `Aead.OpenOfProduced` | packages/browser-runtime/browserprofile/payload.go:99-109 | under an ideal cipher, opening succeeds exactly on what was sealed for that nonce and associated data |
| `Payload.NonceIsInjective` | packages/browser-runtime/browserprofile/payload.go:186-191 | different prefixes or indices give different nonces |
| `Payload.NoncesAreUnique` | packages/browser-runtime/browserprofile/payload.go:44-65 | with distinct prefixes no nonce is used for two different records under one key, as section 8 of NIST SP 800-38D requires |
| `Payload.Chunks` | packages/browser-runtime/browserprofile/payload.go:41-63 | a payload is cut into non-empty chunks of at most the chunk size that concatenate to it |
| `Payload.ChunksAreFull` | packages/browser-runtime/browserprofile/payload.go:41-63 | every chunk but the last has the chunk size |
| `Payload.CompleteDecodes` | packages/browser-runtime/browserprofile/payload.go:68-129 | what a completed run wrote decodes to its payload under any vault that holds its records |
| `Payload.RoundTrip` | packages/browser-runtime/browserprofile/payload.go:19-129 | a finished encryption decrypts to its payload if and only if it is read under the current contract |
| `Payload.AcceptedRecords` | packages/browser-runtime/browserprofile/payload.go:85-128 | records accepted up to the terminator are the rest of one completed run, in order and with nothing after |
| `Payload.AcceptedIsOneWholeRun` | packages/browser-runtime/browserprofile/payload.go:68-129 | with distinct prefixes every accepted stream is byte for byte one whole encryption: no truncation, reordering, splicing or trailing data |
| `Payload.IncompleteIsRejected` | packages/browser-runtime/browserprofile/payload.go:87-98 | a stream that begins like a run but is not the whole encoding of it, finished or not, is rejected |
| `Payload.DeliveredIsGenuine` | packages/browser-runtime/browserprofile/payload.go:119-127 | whatever is delivered before a rejection is a prefix of the payload of one run |
| `PayloadCipher.WriteAll` | packages/browser-runtime/browserprofile/payload.go:169-184 | partial writes add up to the whole value, or to a prefix of it on an error |
| `PayloadCipher.PayloadCipher.Encrypt` | packages/browser-runtime/browserprofile/payload.go:19-66 | success writes exactly the encoding; on any failure the output is a prefix and the sealed records are those of one run; an undisturbed run succeeds exactly if the chunks have indices |
| `PayloadCipher.PayloadCipher.EncryptChunk` | packages/browser-runtime/browserprofile/payload.go:44-62 | one buffer becomes the next chunk; the index never wraps |
| `PayloadCipher.PayloadCipher.Decrypt` | packages/browser-runtime/browserprofile/payload.go:68-129 | the error says whether the stream is whole, and the output is its text or a prefix of it |
| `PayloadCipher.LeadingThenRest` | packages/browser-runtime/browserprofile/payload.go:43-65 | what has been written after k chunks followed by the remaining records is the encoding |
| `ProfileDisk.SurvivorOpens` | packages/browser-runtime/browserprofile/store.go:358-420 | whatever of a Profile directory survives a crash opens as one of its texts, and as corrupt only if the pointer or its directory had never been durable |
| `ProfileDisk.LiveOpens` | packages/browser-runtime/browserprofile/store.go:358-420 | the running system opens one of the texts exactly if the pointer and the checkpoints directory are there |
| `ProfileDisk.MakePendingKeeps` | packages/browser-runtime/browserprofile/store.go:439-442 | a new pending directory endangers no pointer |
| `ProfileDisk.RenameKeeps` | packages/browser-runtime/browserprofile/store.go:482-490 | moving a synced pending directory to a free identifier endangers no pointer |
| `ProfileDisk.SyncCheckpointsKeeps` | packages/browser-runtime/browserprofile/store.go:491-493 | after the checkpoints directory is synced the moved checkpoint is complete and durable |
| `ProfileDisk.RenamePointerKeeps` | packages/browser-runtime/browserprofile/store.go:803-806 | replacing the pointer by a durable checkpoint adds its text to the possible ones |
| `ProfileDisk.SyncFolderKeeps` | packages/browser-runtime/browserprofile/store.go:806-806 | after the directory is synced only the new text is possible |
| `ProfileDisk.RemoveKeeps` | packages/browser-runtime/browserprofile/store.go:538-545 | removing a checkpoint, even halfway, is safe if no pointer that may survive names it |
| `ProfileStore.Store.EncryptPayload` | packages/browser-runtime/browserprofile/store.go:463-477 | success leaves files that hold a completed run of the payload |
| `ProfileStore.Store.NewCheckpointId` | packages/browser-runtime/browserprofile/store.go:517-531 | an identifier is found exactly if one of eight drawn is free |
| `ProfileStore.Store.FillPending` | packages/browser-runtime/browserprofile/store.go:456-480 | a filled and synced pending snapshot holds the payload, and every pointer stays safe throughout |
| `ProfileStore.Store.Publish` | packages/browser-runtime/browserprofile/store.go:482-493 | a published checkpoint is durable; failing, it is discarded unless retained |
| `ProfileStore.Store.PublishPointer` | packages/browser-runtime/browserprofile/store.go:494-512 | committing is the rename of the pointer; until its rename only the old texts are possible, until its sync the old and the new one, after it only the new one |
| `ProfileStore.Store.RemoveOldCheckpoints` | packages/browser-runtime/browserprofile/store.go:533-547 | pruning never touches the current checkpoint and, undisturbed, leaves nothing else |
| `ProfileStore.Store.CommitSnapshot` | packages/browser-runtime/browserprofile/store.go:429-515 | the whole commit, with a failure or crash at any call: as long as the pointer is the old one nothing new is possible; undisturbed it succeeds and leaves only the new checkpoint |
| `ProfileStore.Store.Create` | packages/browser-runtime/browserprofile/store.go:136-178 | success makes exactly the new text current, and each refusal has its own cause: store closed, Profile there, former Profile there; whether it fails or crashes, nothing new can load as long as the pointer has not been written; an undisturbed creation succeeds where nothing refuses it |
| `ProfileStore.Store.Checkpoint` | packages/browser-runtime/browserprofile/store.go:180-213 | success replaces the text; a failure or crash leaves exactly the old possibilities while the pointer is the old one; a Profile that opens is lost exactly if a read fails and the move to quarantine does not; undisturbed it succeeds on every Profile that opens |
| `ProfileStore.Store.Load` | packages/browser-runtime/browserprofile/store.go:215-262 | a present Profile gives what the current checkpoint yields if every read succeeds, and corruption otherwise; an absent one is `NotFound` exactly if no former Profile is there, and needs a migration exactly if one is; a Profile that opens is moved away exactly if a read fails and the move does not, and left exactly as it was otherwise |
| `ProfileStore.Store.Quarantine` | packages/browser-runtime/browserprofile/store.go:565-588 | the Profile leaves the profiles directory as a whole or stays |
| `ProfileStore.SurvivorIsSafe` | packages/browser-runtime/browserprofile/store.go:136-213 | every disk that survives a crash is again safe for the same texts |
| `ProfileStore.LoadAfterCrash` | packages/browser-runtime/browserprofile/store.go:180-262 | after a crash at any point a load finds one of the texts, or nothing only if the directory entry was not durable |
| `ProfileStore.NothingElseLoads` | packages/browser-runtime/browserprofile/store.go:549-563 | every survivor opens as one of the possible texts or counts as corrupt; with no text possible it never opens as data |
| `ProfileDisk.FailingReads` | packages/browser-runtime/browserprofile/store.go:370-416 | the result of a series of reads and what comes after, against the closed form: one of the first n fails after successes, and the next call does not |
| `ProfileStore.Store.Open` | packages/browser-runtime/browserprofile/store.go:358-427 | opening answers `NotFound` exactly if neither a Profile nor a former one is there and its reads succeed, asks for a migration exactly where only a former one is, and counts any failing read as corruption |
| `ProfileStore.Store.OpenOrQuarantine` | packages/browser-runtime/browserprofile/store.go:549-563 | a Profile that opens is moved away if and only if one of its reads fails and the move does not |
| `ProfileHistory.CheckpointStep` | packages/browser-runtime/browserprofile/store.go:180-213 | one checkpoint turns the set of possible texts into the new one, old and new, or the old ones, or moves the Profile away |
| `ProfileHistory.Live` | packages/browser-runtime/browserprofile/store.go:136-262 | from a creation on, over any checkpoints, loads and power cuts with failures and crashes at any call: each load returns a text that the history allows, or corruption only if one of its own reads failed, or nothing only where the history may have lost the Profile; and a power cut can lose a Profile that is there if and only if the machine has not restarted since the creation |
| `ProfileHistory.InterruptedCreation` | packages/browser-runtime/browserprofile/store.go:149-178 | a creation that fails or is interrupted anywhere loads after the next start as the whole payload, and only if its pointer was reached, or as nothing |
| `ProfileHistory.ReadErrorLosesProfile` | packages/browser-runtime/browserprofile/store.go:194-203 | concrete runs in which a load and a checkpoint quarantine an intact Profile after one failed read |
| `ProfileHistory.LoadForetellsCreate` | packages/browser-runtime/browserprofile/store.go:358-368 | an undisturbed load of an absent Profile answers `NotFound` exactly where an undisturbed creation succeeds, and asks for a migration exactly where the creation answers that one is required |
| `ProfileMigration.SyncTreeChangesNothing` | packages/browser-runtime/browserprofile/migration_linux.go:442-471 | syncing makes the live target durable and changes nothing else about it |
| `ProfileMigration.DurableTargetSurvives` | packages/browser-runtime/browserprofile/migration_linux.go:442-471 | a durable target survives every crash with the same content, fingerprint and inventory |
| `ProfileMigration.CrashIsSafe` | packages/browser-runtime/browserprofile/migration_linux.go:198-207 | no crash exposes an unverified target without its marker |
| `ProfileMigration.Migration.Reserve` | packages/browser-runtime/browserprofile/migration_linux.go:218-281 | a reservation appears at the destination only with its marker durable; an occupied destination is left alone |
| `ProfileMigration.Migration.CreateTarget` | packages/browser-runtime/browserprofile/migration_linux.go:298-318 | a creation in the reserved store yields the piped plaintext, and undisturbed it succeeds |
| `ProfileMigration.Migration.WriteReceipt` | packages/browser-runtime/browserprofile/migration_linux.go:175-197 | a receipt is written exactly for a lone and fresh target, and matches it |
| `ProfileMigration.Migration.SyncTarget` | packages/browser-runtime/browserprofile/migration_linux.go:198-200 | after the sync the target is complete whatever happens |
| `ProfileMigration.Migration.Activate` | packages/browser-runtime/browserprofile/migration_linux.go:473-499 | readiness is reported exactly when the marker has been removed from a complete target |
| `ProfileMigration.Migration.Execute` | packages/browser-runtime/browserprofile/migration_linux.go:29-208 | readiness implies a complete target; undisturbed it succeeds exactly if the target is fresh |
| `ProfileMigration.Migration.Verify` | packages/browser-runtime/browserprofile/migration_linux.go:501-586 | check changes nothing, finalize syncs before it activates, undisturbed both succeed on exactly the standing runs, and in both modes a success reports ready if and only if the marker is gone |
| `ProfileMigration.Migration.OpenStore` | packages/browser-runtime/browserprofile/store.go:99-106 | an ordinary store refuses the destination exactly while the marker is there |
| `ProfileMigration.Run` | packages/browser-runtime/browserprofile/migration_linux.go:29-208 | over any commands, interruptions, crashes and tampering with the pending target, each command does and reports what it may, and a reservation that opens is complete, matches its receipt and decrypts to the source, which is unchanged |
| `ProfileMigration.ReadyCheckOpens` | packages/browser-runtime/browserprofile/migration_linux.go:501-586 | after a check that succeeds the destination opens as a store if and only if the check reported it ready |
| `ProfileMigration.StandingMeans` | packages/browser-runtime/browserprofile/migration_linux.go:526-571 | a run stands exactly if its receipt is for this request, this source and its text, dated by the anchor, and for all that is there |
| `ProfileMigration.ExecuteThenCheck` | packages/browser-runtime/browserprofile/migration_linux.go:160-208 | after an undisturbed execution a check of the same request succeeds and reports ready, a check of any other request is refused, and the destination opens with the source's text |
| `BrowserLease.EpochIsKeptForTheSame` | packages/agent-adapters/agentexec/browser_run.go:569-594 | a session epoch is kept if and only if policy and attachment are the same, and the control epoch always rises by one |
| `BrowserLease.LastDecides` | packages/agent-adapters/agentexec/browser_run.go:858-880 | in a session that no lease behind its last activation has persisted, an identity is newer, or not older, than all activations if and only if it is so for the last one |
| `BrowserLease.FencedPairs` | packages/agent-adapters/agentexec/browser_run.go:551-612 | a later activation of such a session is never older, has the policy of its session epoch, and is newer unless its lease was owing or overtaken |
| `BrowserLease.ActivationIsFenced` | packages/agent-adapters/agentexec/browser_run.go:858-880 | activating a persisted lease keeps the whole history fenced, whether or not the lease has been overtaken |
| `BrowserLease.TornExactly` | packages/agent-adapters/agentexec/browser_run.go:858-880 | a persist lets an activation of its session go back, or one session epoch have two policies, if and only if the session's last activation does not precede the persisted identity; never where nobody has activated the session since the lease's own last activation |
| `BrowserLease.PersistKeeps` | packages/agent-adapters/agentexec/browser_run.go:858-880 | writing the state before the active lease keeps every file and every lease as far as its session's activations, whichever write fails and whoever else holds leases |
| `BrowserLease.RotateKeeps` | packages/agent-adapters/agentexec/browser_run.go:767-792 | a rotation keeps all that, also where persisting fails and memory stays ahead |
| `BrowserLease.TransitionKeeps` | packages/agent-adapters/agentexec/browser_run.go:802-841 | so does a transition, also where it fails and is rolled back in memory |
| `BrowserLease.CloseKeeps` | packages/agent-adapters/agentexec/browser_run.go:882-923 | so does a close that fails and leaves a usable lease without the root |
| `BrowserLease.EveryRunIsSound` | packages/agent-adapters/agentexec/browser_run.go:547-923 | after any operations of any Runs on one root, with any failures, crashes and restarts, the history of activations is fenced and only its last identity can be active |
| `BrowserLease.AcquireOutcome` | packages/agent-adapters/agentexec/browser_run.go:547-594 | in any sound world a Run that acquires a session with a file keeps its session, adds one to its control epoch, and to its session epoch one for another policy and one for another attachment; without a file it opens at epoch one a session that no file, lease or activation knows; and it holds what the files say |
| `BrowserLease.FailedAcquireHoldsNothing` | packages/agent-adapters/agentexec/browser_run.go:595-640 | an acquisition that is not persisted holds nothing and frees the root |
| `BrowserLease.RotateOutcome` | packages/agent-adapters/agentexec/browser_run.go:767-792 | a rotation keeps Run, session and policy, raises both epochs by one, gives control to the agent, and is on disk and active if it is persisted |
| `BrowserLease.AttachmentsAreFresh` | packages/agent-adapters/agentexec/browser_run.go:767-792 | after any run, a lease that is taken up and one that is rotated get an attachment that no activation and no other lease has carried |
| `BrowserLease.AttachmentsTellIncarnations` | packages/agent-adapters/agentexec/browser_run.go:767-792 | in any run, two activations under one attachment are of the same Run, session, session epoch and policy |
| `BrowserLease.PersistStops` | packages/agent-adapters/agentexec/browser_run.go:858-880 | wherever a persist stops, the state is written before the identity is active and that before the Run's file; an identity whose Run has no file is taken out again where that can be done |
| `BrowserLease.TransitionOutcome` | packages/agent-adapters/agentexec/browser_run.go:819-840 | a persisted transition is on disk and active; another leaves the lease in memory, owing exactly if it was before or its identity was activated |
| `BrowserLease.OwingIsBehind` | packages/agent-adapters/agentexec/browser_run.go:835-838 | a lease is owing if and only if its next epoch has been activated already |
| `BrowserLease.CloseOutcome` | packages/agent-adapters/agentexec/browser_run.go:882-906 | a close frees the root in any case, and ends the lease exactly if both files could be dealt with; otherwise the lease stays usable |
| `BrowserLease.CloseSparesOthers` | packages/agent-adapters/agentexec/browser_run.go:908-922 | a close removes no other Run's file and the active file only if it is still its own |
| `BrowserLease.NextIsNewer` | packages/agent-adapters/agentexec/browser_run.go:767-841 | a lease's next identity, by rotation or hand-over, is above all earlier ones of its session if and only if the session's last one is not above the lease: not owing where nobody has overtaken it, and not overtaken where no epoch has been lost |
| `BrowserLease.TidyRunsRise` | packages/agent-adapters/agentexec/browser_run.go:547-923 | where every close succeeds nobody is overtaken and the activations of a session are in order; where besides no transition fails after its activation, every control epoch is above all earlier ones |
| `BrowserLease.Root.Persist` | packages/agent-adapters/agentexec/browser_run.go:858-880 | state, active and per-Run file in this order, with a failure or crash at each, which may leave the step done |
| `BrowserLease.Root.Acquire` | packages/agent-adapters/agentexec/browser_run.go:528-640 | the program is where the specification of taking up and first persisting a lease leads, whose outcome `BrowserLease.AcquireOutcome` states in terms of the files |
| `BrowserLease.Root.Rotate` | packages/agent-adapters/agentexec/browser_run.go:767-792 | both epochs rise by one under the new attachment and the agent's control, also in memory when persisting fails |
| `BrowserLease.Root.TransitionController` | packages/agent-adapters/agentexec/browser_run.go:802-841 | succeeds exactly if the expected controller holds the lease, the epoch is the next and all writes succeed; else memory is as before |
| `BrowserLease.Root.Close` | packages/agent-adapters/agentexec/browser_run.go:882-923 | the method removes what the specification of a close removes and reports whether the lease has ended |
| `BrowserLease.Live` | packages/agent-adapters/agentexec/browser_run.go:547-923 | the program is where any operations lead one by one, and sound there |
| `BrowserLease.RecordFailureRepeatsAnEpoch` | packages/agent-adapters/agentexec/browser_run.go:835-838 | a concrete run in which two different identities are activated under one control epoch |
| `BrowserLease.OvertakenLeaseBreaksTheFence` | packages/agent-adapters/agentexec/browser_run.go:890-906 | a concrete run without a failed persist in which one session epoch has two policies: a close fails, another Run acquires the session, the first one rotates |
| `BrowserLease.OvertakenLeaseGoesBack` | packages/agent-adapters/agentexec/browser_run.go:890-906 | a concrete run of that kind in which both epochs go back |
| `HumanControl.EpochsRise` | packages/agent-adapters/agentexec/browser_human_control.go:221-315 | effective transitions raise the control epoch by exactly one each |
| `HumanControl.EffectiveOnce` | packages/agent-adapters/agentexec/browser_human_control.go:187-219 | a command, however often it arrives, takes effect at most once |
| `HumanControl.HumanAfterPauseAndClaim` | packages/agent-adapters/agentexec/browser_human_control.go:221-294 | between the agent's control and a human's there is a pause after which the agent has not had control, and the human has claimed it last |
| `HumanControl.CommandActs` | packages/agent-adapters/agentexec/browser_human_control.go:207-305 | a matched command takes effect exactly if the lease still has its controller and epoch and the transition is persisted |
| `HumanControl.FinishReleases` | packages/agent-adapters/agentexec/browser_human_control.go:307-339 | resume and terminate close the channel of a pause, which is open then |
| `HumanControl.FailedPausePanics` | packages/agent-adapters/agentexec/browser_human_control.go:112-118 | a pause closes a closed channel if and only if it cannot change the lease and a command has crossed it |
| `HumanControl.CloseTakesControlBack` | packages/agent-adapters/agentexec/browser_run.go:426-450 | closing the Browser takes control back to the agent exactly if the other controller it saw still holds it and the change is persisted |
| `HumanControl.EventLawful` | packages/agent-adapters/agentexec/browser_human_control.go:100-340 | every event keeps the hand-over diagram, the match of the command being handled and the account of the channels |
| `HumanControl.EveryInterleavingIsLawful` | packages/agent-adapters/agentexec/browser_human_control.go:100-340 | after any interleaving the trace follows the hand-over diagram, and a channel has been closed twice if and only if a pause failed after a command had crossed it |
| `HumanControl.Control.Run` | packages/agent-adapters/agentexec/browser_human_control.go:100-340 | the program is where the events lead one by one |
| `HumanControl.TerminateDuringPausePanics` | packages/agent-adapters/agentexec/browser_human_control.go:112-118 | whenever an idle control starts a pause, a terminate that is handled before the pause reaches the lease leads to closing a closed channel |
| `HumanControl.RunIntoPanic` | packages/agent-adapters/agentexec/browser_human_control.go:112-118 | a concrete run that gets there |
| `HumanControl.ReceiveMatches` | packages/agent-adapters/agentexec/browser_human_control.go:187-219 | a command is matched exactly if nothing else is being handled, its epochs are as its action demands, and it names the lease in every respect |
| `HumanControl.PauseTakesControl` | packages/agent-adapters/agentexec/browser_human_control.go:100-118 | a pause takes control from the agent exactly if the agent has it and the change is persisted |
| `HumanControl.TerminateEnds` | packages/agent-adapters/agentexec/browser_human_control.go:307-339 | a terminate takes control back to the agent if it can, closes the lease unless the process has crashed, and lets the waiting agent go on |
| `HumanControl.TakeOverSucceeds` | packages/agent-adapters/agentexec/browser_human_control.go:100-340 | from wherever the agent has control, an undisturbed pause, claim, release and resume give it to a human and back in four transitions, and nobody is left waiting |
| `SessionPruning.PrefixIsOldest` | packages/agent-adapters/agentexec/browser_run.go:705-710 | the first n in sorted order are exactly the candidates with fewer than n older ones |
| `SessionPruning.ExpiredArePrefix` | packages/agent-adapters/agentexec/browser_run.go:717-721 | the expired candidates are a prefix of the sorted ones |
| `SessionPruning.CountsAgree` | packages/agent-adapters/agentexec/browser_run.go:712-730 | the loop stops at the larger of the number expired and the excess over the target |
| `SessionPruning.Directory.Collect` | packages/agent-adapters/agentexec/browser_run.go:679-704 | the candidates are all sessions but the current and the active one; any broken entry stops everything |
| `SessionPruning.Directory.Prune` | packages/agent-adapters/agentexec/browser_run.go:647-731 | the deleted files are exactly the quota of oldest candidates, success is fitting the target, protected sessions stay, and with the Run's own file the limit holds |
| `SessionPruning.QuotaPrunesWell` | packages/agent-adapters/agentexec/browser_run.go:647-731 | a pruning whose removals succeed keeps what is protected, removes older sessions before newer ones and all that has expired, and others only as far as the target demands |
| `RootLocks.Exclusive` | packages/agent-adapters/agentexec/browser_run.go:1118-1138 | at most one thread holds a key |
| `RootLocks.EntryExactlyWhileUsed` | packages/agent-adapters/agentexec/browser_run.go:1120-1136 | an entry is in the map exactly while threads use its key, and `refs` counts them |
| `RootLocks.WaiterCanEnter` | packages/agent-adapters/agentexec/browser_run.go:1128-1130 | a waiting thread's entry is unlocked exactly if nobody holds its key, so no wake-up is lost |
| `RootLocks.NothingIsLeft` | packages/agent-adapters/agentexec/browser_run.go:1131-1136 | when all threads have left the map is empty |
| `RootLocks.RegisterKeeps` | packages/agent-adapters/agentexec/browser_run.go:1120-1127 | registering keeps one live entry per key |
| `RootLocks.DeregisterKeeps` | packages/agent-adapters/agentexec/browser_run.go:1131-1136 | deregistering removes the entry exactly if nobody else uses it |
| `RootLocks.LockTable.Enter` | packages/agent-adapters/agentexec/browser_run.go:1128-1128 | a thread enters exactly if nobody holds the key |
| `RootLocks.EveryInterleavingIsSound` | packages/agent-adapters/agentexec/browser_run.go:1118-1138 | after any interleaving of any threads and keys the table is sound |
| `RootLocks.Run` | packages/agent-adapters/agentexec/browser_run.go:1118-1138 | the table is where any interleaving of any threads and keys leads, and sound there |
| `RequestHistory.PageClicksWithinRun` | packages/browser-runtime/browserruntime/connection.go:539-558 | the clicks blocked on the present page are among those of the present Run |
| `RequestHistory.AdmittedAfter` | packages/browser-runtime/browserruntime/connection.go:397-439 | charging a new request within its limits keeps all promises of admission |
| `RequestHistory.GenerationsRise` | packages/browser-runtime/browserruntime/connection.go:492-537 | over any stretch of a history with the same Run, place and engine, and so without a reset, the generation never goes back |
| `RuntimeServer.AdmissionStep` | packages/browser-runtime/browserruntime/connection.go:386-395 | the kept fields are what the events since the last change of attachment add up to |
| `RuntimeServer.BudgetStep` | packages/browser-runtime/browserruntime/connection.go:539-558 | the kept counters are the blocked clicks since the Run and since the page changed |
| `RuntimeServer.StepsAdvance` | packages/browser-runtime/browserruntime/connection.go:492-537 | preparing, accepting, counting and resetting start the right counters again and never take a generation back |
| `RuntimeServer.ExhaustedHasClicks` | packages/browser-runtime/browserruntime/connection.go:440-443 | a spent budget has a blocked click in the Run, with its evidence |
| `RuntimeServer.Server.ReserveRequest` | packages/browser-runtime/browserruntime/connection.go:380-446 | a request is charged exactly if it is new, in time and within the limit; a click beyond the budget is charged and refused, with a failure that validates if and only if a generation is known; what a request costs is told from the requests alone in `RuntimeServer.AdmissionIsTold` |
| `RuntimeServer.Server.ReserveViewerRequest` | packages/browser-runtime/browserruntime/connection.go:312-344 | a Viewer request is charged exactly if it is new in the attachment and within its limit |
| `RuntimeServer.Server.EndAttachment` | packages/browser-runtime/browserruntime/connection.go:374-377 | a fenced challenge ends the attachment |
| `RuntimeServer.Server.RecordEngineObservation` | packages/browser-runtime/browserruntime/connection.go:448-463 | an observation is accepted unless its generation is missing or has gone back |
| `RuntimeServer.Server.RecordBlockedClick` | packages/browser-runtime/browserruntime/connection.go:465-490 | an accepted blocked click counts once in Run and page, and the attempts left are those of the history |
| `RuntimeServer.Server.HandleAction` | packages/browser-runtime/browserruntime/connection.go:89-163 | one request at a time is reserved and answered as specified and keeps both click budgets |
| `RuntimeServer.Serve` | packages/browser-runtime/browserruntime/server.go:146-170 | each connection is answered as the ones before it demand, admission keeps its promises, the counters match the history, page within Run within limits, and between neighbouring events the generation of one engine does not go back |
| `RuntimeServer.AdmissionIsTold` | packages/browser-runtime/browserruntime/connection.go:397-439 | over any connections the kept action count is the sum, over the charged connections that act and do not close since the attachment changed, of the batch length or one; used identifiers, close attempts and Viewer requests are told from the connections likewise, and no sum passes its limit |
| `RuntimeServer.EveryVerdictIsDecided` | packages/browser-runtime/browserruntime/connection.go:380-446 | each verdict is decided by the connections before it: a new action in an attachment that is not over is refused exactly if their sum and its own length pass the limit |
| `RuntimeServer.ClicksTold` | packages/browser-runtime/browserruntime/connection.go:440-558 | a charged click is refused exactly if three clicks have been blocked on its page or twelve in its Run, with what is known as evidence, and only a report or a reset changes what is known |
| `RuntimeServer.OverlappingClicksOverdraw` | packages/browser-runtime/browserruntime/connection.go:440-445 | a concrete overlap of two clicks that overdraws a page's budget, so that serving one at a time matters |
| `RuntimeServer.ExhaustedClickFailsValidation` | packages/browser-runtime/browserruntime/connection.go:440-446 | a concrete run in which the failure of an exhausted click does not validate, because a reset has forgotten the generation |
| `RuntimeServer.ResetForgetsGeneration` | packages/browser-runtime/browserruntime/connection.go:528-537 | a concrete run in which an older generation of the same engine is accepted after a reset |
| `BackendSelector.Selector.Execute` | packages/browser-runtime/browserruntime/backend_selector.go:104-260 | an answer comes only from a selected backend in its scope that serves the requested mode, exactly when the backends allow it; other actions never change the selection |
| `BackendSelector.Selector.ExecuteRotated` | packages/browser-runtime/browserruntime/backend_selector.go:124-163 | a rotated attachment stays on the same backend, or a failed preflight gives it up |
| `BackendSelector.Selector.ExecuteSelected` | packages/browser-runtime/browserruntime/backend_selector.go:193-208 | the selected backend answers in its own scope with current evidence |
| `BackendSelector.Selector.SelectBackend` | packages/browser-runtime/browserruntime/backend_selector.go:324-355 | only a success with complete evidence selects, and a failed startup is aborted |
| `BackendSelector.Selector.SelectAuto` | packages/browser-runtime/browserruntime/backend_selector.go:262-315 | the isolated backend is tried only if the official one is absent or was aborted, and carries the reason |
| `BackendSelector.Selector.Select` | packages/browser-runtime/browserruntime/backend_selector.go:210-260 | a selected backend serves the mode asked for |
| `BackendSelector.EquivalentModesServeAlike` | packages/browser-runtime/browserruntime/backend_selector.go:513-528 | modes that count as equivalent are served by the same backends |
| `BackendSelector.IsolatedIsSelected` | packages/browser-runtime/browserruntime/backend_selector.go:210-260 | a preflight for the isolated mode, or for none, selects the isolated backend exactly if that answers; else the failure is its own, or that of a startup that could not be aborted |
| `BackendSelector.NativeIsSelected` | packages/browser-runtime/browserruntime/backend_selector.go:210-260 | a native preflight selects the official backend exactly if that is there and answers with complete evidence |
| `BackendSelector.AutoIsSelected` | packages/browser-runtime/browserruntime/backend_selector.go:262-315 | an automatic preflight takes the official backend where it starts and the isolated one where the official one is absent or has failed to start and was shut down, and the evidence says why |
| `BackendSelector.SelectedGoesOn` | packages/browser-runtime/browserruntime/backend_selector.go:104-208 | the selected backend answers what is for it exactly if it succeeds with complete evidence; only a preflight under another attachment can lose it |
| `BackendSelector.SelectedRefuses` | packages/browser-runtime/browserruntime/backend_selector.go:104-163 | anything else is refused while a backend is selected, except a preflight of another Session, which shuts the backend down and starts from nothing |
| `BackendSelector.LogAfter` | packages/browser-runtime/browserruntime/backend_selector.go:271-303 | no call breaks the order of calls that reach the backends |
| `BackendSelector.Serve` | packages/browser-runtime/browserruntime/backend_selector.go:104-384 | the selector is where any requests lead, each is answered as the ones before it demand, no other action reaches an unselected backend, fallback is clean, and no backend runs beside the selected one unless an abort failed |
| `ProfileEngine.CompareIsAnOrder` | packages/browser-runtime/browserruntime/profile_environment.go:120-138 | version comparison is a total order |
| `ProfileEngine.CompareFromTheFirstPart` | packages/browser-runtime/browserruntime/profile_environment.go:120-138 | the first part that differs decides |
| `ProfileEngine.NeverGoesBack` | packages/browser-runtime/browserruntime/profile_engine.go:500-519 | in a careful history, as long as a Profile stays stored its Browser version never decreases |
| `ProfileEngine.EventKeeps` | packages/browser-runtime/browserruntime/profile_engine.go:590-603 | one more event keeps a history careful, if a Profile is stored over what the store held and after the preflight that a changed environment needs |
| `ProfileEngine.WithKeeps` | packages/browser-runtime/browserruntime/profile_engine.go:651-655 | the active Profile may be stored unless it still waits for its preflight |
| `ProfileEngine.LoadDecides` | packages/browser-runtime/browserruntime/profile_engine.go:428-535 | exactly which stored Profiles load, and what is then pending |
| `ProfileEngine.LoadRefuses` | packages/browser-runtime/browserruntime/profile_engine.go:428-535 | why a stored Profile that can be read is refused: it is bound otherwise or a newer Browser wrote it |
| `ProfileEngine.ActivationRefuses` | packages/browser-runtime/browserruntime/profile_engine.go:408-536 | a refusal for the environment leaves the Profile in the store as it was |
| `ProfileEngine.UnprovenIsNotStored` | packages/browser-runtime/browserruntime/profile_engine.go:590-603 | nothing is stored of a pending Profile that is not validated |
| `ProfileEngine.CheckpointStores` | packages/browser-runtime/browserruntime/profile_engine.go:604-675 | exactly when a checkpoint succeeds; then the store holds what the Browser left under the locked environment, and no other Profile has changed |
| `ProfileEngine.CloseStores` | packages/browser-runtime/browserruntime/profile_engine.go:198-238 | closing the active attachment is done exactly if every step of storing its Profile succeeds; then the store holds what the Browser left under the locked environment and the Profile is given up |
| `ProfileEngine.CheckpointRequestStores` | packages/browser-runtime/browserruntime/profile_engine.go:198-238 | a checkpoint request is done exactly if the Browser runs and every step of storing the Profile succeeds; then it is stored and stays active |
| `ProfileEngine.ReplacedIsStored` | packages/browser-runtime/browserruntime/profile_engine.go:408-427 | another Session's request first stores the active Profile and goes no further unless that succeeds |
| `ProfileEngine.NewProfileIsStored` | packages/browser-runtime/browserruntime/profile_engine.go:154-197 | the first preflight of a new Profile stores it and proves that it opens again |
| `ProfileEngine.DoneIsStored` | packages/browser-runtime/browserruntime/profile_engine.go:198-238 | over any lives, every request that had to store the active Profile and was done has its event in the history, where the request began |
| `ProfileEngine.PreflightProves` | packages/browser-runtime/browserruntime/profile_engine.go:154-197 | a preflight validates a stored Profile exactly if the process observes the locked environment; a failed upgrade changes nothing and gives the Profile up |
| `ProfileEngine.RefusalKeepsProfile` | packages/browser-runtime/browserruntime/profile_engine.go:124-238 | whenever a request is refused for upgrade, downgrade or environment its Profile is stored exactly as before |
| `ProfileEngine.ExecutingKeeps` | packages/browser-runtime/browserruntime/profile_engine.go:124-238 | every request keeps the history careful and the store in step with it |
| `ProfileEngine.EveryLifeIsCareful` | packages/browser-runtime/browserruntime/profile_engine.go:85-390 | over any engines with different versions, killed or closed, every Profile was stored in its generation, over what the store held, not under an older Browser, and where that changed the recorded environment after a preflight that saw the new one; the history accounts for the store |
| `ProfileEngine.RunLives` | packages/browser-runtime/browserruntime/profile_engine.go:85-390 | the program leaves the store where the lives lead and answers each request as the ones before it demand; each `Done` that had to store a Profile has its `Stored` event, and a Profile that stays in the store is never taken back to an older Browser |
| `OpsObserver.LeaseManager.Admit` | packages/browser-runtime/browserruntime/ops_observer_lease.go:37-55 | the lease is given exactly if nobody has it |
| `OpsObserver.LeaseManager.AdmitRequest` | packages/browser-runtime/browserruntime/ops_observer_lease.go:74-100 | a request is admitted exactly if it is new, for the lease and within the limit |
| `OpsObserver.LeaseManager.NextSequence` | packages/browser-runtime/browserruntime/ops_observer_lease.go:102-116 | the next number for the holder, none for others |
| `OpsObserver.LeaseManager.Release` | packages/browser-runtime/browserruntime/ops_observer_lease.go:120-126 | a release by name frees that lease only |
| `OpsObserver.OneObserver` | packages/browser-runtime/browserruntime/ops_observer_lease.go:37-55 | the manager is occupied by one connection and by no other |
| `OpsObserver.Runtime.Arrive` | packages/browser-runtime/browserruntime/ops_observer.go:204-266 | a probe changes nothing |
| `OpsObserver.Runtime.Claim` | packages/browser-runtime/browserruntime/ops_observer.go:245-262 | exactly one connection at a time gets the lease, and a refused one changes nothing |
| `OpsObserver.Runtime.Register` | packages/browser-runtime/browserruntime/ops_observer.go:267-270 | a holder's request fails only as a repetition or beyond 4096, never for a lost lease |
| `OpsObserver.Runtime.Number` | packages/browser-runtime/browserruntime/ops_observer.go:291-302 | observations are numbered 1, 2, 3 and so on, and those that validate are delivered |
| `OpsObserver.Runtime.NumberRecorded` | packages/browser-runtime/browserruntime/ops_observer_lease.go:102-116 | delivered numbers are consecutive where no observation failed validation |
| `OpsObserver.Runtime.End` | packages/browser-runtime/browserruntime/ops_observer.go:198-202 | the end of a connection frees its own lease and no other |
| `OpsObserver.Run` | packages/browser-runtime/browserruntime/ops_observer.go:195-304 | the Runtime is where any interleaving of any connections of any listeners leads, the lease is single and its record in order |
| `OpsObserver.FirstIsServed` | packages/browser-runtime/browserruntime/ops_observer.go:195-304 | whoever comes while the lease is free gets it, and its first valid observation is delivered as number one |
| `OpsObserver.OthersAreTurnedAway` | packages/browser-runtime/browserruntime/ops_observer.go:245-262 | whoever asks while the lease is taken is turned away, and nothing else changes |
| `OpsObserver.CheckPasses` | packages/browser-runtime/browserruntime/ops_observer.go:267-290 | a later request passes exactly if it names the lease, Run and expiry that were admitted, before that expiry |
| `ActionSample.Engine.Report` | packages/browser-runtime/browserruntime/profile_engine.go:309-330 | an action is reported in flight only if one single action had begun before the capture and had not finished after it, and always if the one in flight at the first load still is at the last |
| `ActionSample.Engine.LoadFlight2` | packages/browser-runtime/browserruntime/process_engine.go:425-433 | the counter in flight is loaded before the counter of starts |
| `ActionSample.Run` | packages/browser-runtime/browserruntime/process_engine.go:160-167 | the engine is where any interleaving of actions and observers leads, and each true report there is sound |
| `ActionSample.SwappedLoadsMisreport` | packages/browser-runtime/browserruntime/process_engine.go:429-432 | with the loads in the other order a concrete interleaving reports an action that spanned nothing |
| `Observation.Observation.Start` | packages/agent-adapters/agentexec/browser_observation.go:118-150 | a repeated start changes nothing, another is refused while one is active, else a stream owns the lease |
| `Observation.Observation.StopLease` | packages/agent-adapters/agentexec/browser_observation.go:159-173 | only the named lease is ended, and its stream is cancelled |
| `Observation.Observation.EmitEvent` | packages/agent-adapters/agentexec/browser_observation.go:522-534 | an event is numbered exactly if its lease is current, one after the last |
| `Observation.Observation.CaptureMarked` | packages/agent-adapters/agentexec/browser_observation.go:318-384 | a frame is published only of the attempt that was named, and when it is delivered |
| `Observation.Observation.CaptureFinal` | packages/agent-adapters/agentexec/browser_observation.go:279-301 | the frames of a final capture are marked exactly where the start accepts the marker |
| `Observation.Observation.Exit` | packages/agent-adapters/agentexec/browser_observation.go:183-183 | the end of a stream takes another's lease if and only if that one was started under the same name |
| `Observation.OneStreamPerLease` | packages/agent-adapters/agentexec/browser_observation.go:522-534 | with distinct leases all numbered events of a lease come from one stream, in increasing order |
| `Observation.ReusedLeaseIsTornDown` | packages/agent-adapters/agentexec/browser_observation.go:152-154 | a concrete run in which a reused lease name is torn down by its predecessor |
| `Observation.Run` | packages/agent-adapters/agentexec/browser_observation.go:118-301 | the observation is where any interleaving leads, and the numbered events are consecutive, of their own streams, final only where agreed and only of the named attempt |
| `Observation.RoundIsPublished` | packages/agent-adapters/agentexec/browser_observation.go:175-301 | undisturbed, an observation is numbered from its start over its frames, the last one marked where that was agreed, to its end, and then the lease is free again |
| `Observation.CaptureTells` | packages/agent-adapters/agentexec/browser_observation.go:318-384 | a capture under the named attempt is published as a frame, one under another and a broken one as an error |
| `Observation.FirstSettledDecides` | packages/agent-adapters/agentexec/browser_observation.go:279-301 | the last captures are tried until one settles the matter, which decides |

## Left out

- Cipher, key wrapping, hashing, identifiers: the cipher is ideal, hashes are injective, random identifiers are fresh or given; the data key is authenticated by the metadata alone.
- JSON, time formatting, permission, ownership and symbolic-link checks, sockets, process control: only their outcome, as a failing step.
- PayloadCipher.PayloadCipher.Encrypt: writers that report more bytes than they were given are not modelled; the source answers them with an error.
- ProfileStore.Store.Create: the temporary file of the pointer and its content are one step with the rename, because an unrenamed temporary file is never read.
- ProfileStore.Store.Load: each of the reads in opening, and each decryption pass, is one step that may fail; failing rewinds, a caller that cannot take the text and cancellation by the caller leave the Profile alone and are not modelled.
- ProfileStore.Store.Quarantine: the report file, the read-only tree and the second directory sync come after the move and are not modelled.
- ProfileStore.Store.Open: the reads that look for a Profile of the former contract are not steps; their outcome is a constant of the store.
- ProfileStore: PruneInactive appears in the engine's model as the removal of Profiles; its selection by age is not modelled, nor is a partly removed tree.
- ProfileDisk: a sync that fails makes nothing durable in the model; on a real disk it may have made some of it durable, which leaves fewer survivors.
- ProfileMigration.Migration.Execute: path, mount-alias and inode checks, locks and cancellation are steps that may fail; one source and one destination; the lock excludes other commands while one runs.
- ProfileMigration.Migration.Verify: an occupied destination made by somebody else is taken to hold no matching receipt.
- BrowserLease.Root.Acquire: the expiry of leases and the selection of pruned sessions (see `SessionPruning`) are parameters; an acquisition that fails before its first write changes no more than the pruned sessions, and only the mismatch of the session's key is modelled; epochs are unbounded integers, not 64-bit.
- BrowserLease.Root.Persist: the atomic replacement of a file is one step that an error or a process crash leaves done or undone; loss of power is not modelled there.
- BrowserLease.NextIsNewer: nothing is promised of a session once a lease behind its last activation has persisted it.
- HumanControl.Control: one Run's control of its own lease; what other Runs do to the root does not change that lease and is left to `BrowserLease`.
- HumanControl.Control.Proceed: frames, Viewer calls other than the answer to a release, and lifecycle events are left out; they change neither lease nor pause.
- SessionPruning.Sort: the library's sort is written as an insertion sort; the order has no ties, so the result is the same.
- RootLocks.LockTable.Enter: a blocked thread tries again; fairness is not modelled.
- RuntimeServer.Server.ReserveRequest: lease validation and revocation come before it as in the source and are not part of it; the request limit is a parameter.
- RuntimeServer.EngineOutcome: failures that do not validate are among the other failures, which change nothing.
- BackendSelector.Selector.Close: the closing of the backends counts as a successful abort; the published ops snapshot is left out because the code does not keep it in step with the selection.
- ProfileEngine.Engine.Load: archive extraction, state validation and the parsing of versions are outcomes; the archive format is left out.
- OpsObserver.Runtime.Claim: the deadline arithmetic for a short first lease is a parameter of the arrival.
- Observation.Observation.Open: the refusal of a second start is sent outside the numbering and is the returned flag; acknowledgement matching is an outcome.
- Observation.Observation.CaptureFinal: the retry window is any number of attempts; which stream receives the request of a closing round is not modelled.
- The OpenLinker SDK, the command line, tool schemas, prompts, configuration and the Windows stubs: they hold no state that these protocols depend on.
