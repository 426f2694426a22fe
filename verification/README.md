# Relayfile coordination protocols, verified

Relayfile mounts a remote workspace as a local directory. This project models the parts of it
in which several processes, a server and a crash-prone disk have to agree, and proves their
safety over every run; and two list computations that must agree with a simple specification.

* **Cutover** (`SealStore`, `CutoverModel`, `CutoverInvariant`, `CutoverTheorems`,
  `CutoverProofs`, `CutoverCommands`, `CutoverWitness`). `mount checkpoint-seal`, `resume-seal` and
  `handback-seal` move write ownership of a workspace between a source and a destination
  mount. `SealStore` is the server's seal record, taken from the server's own code.
  `CutoverModel` is a transition system over durable records, daemons, leases, the server and
  the network: any save may fail, any command may die between two effects, a request once
  sent may be handled any number of times at any later moment with its reply delivered or
  lost, and the environment consumes, reconciles, purges, writes and kills. `CutoverCommands`
  holds the commands as the sequential programs they are, each proved to refine the machine.
* **Destination verification** (`DestinationVerification`): `mount verify-seal`, as a machine
  with kills and reruns and as a program that refines it.
* **Lifecycle directory and lock** (`LifecycleRegistry`, `LifecycleLock`): ids, generations,
  and the per-root lock file at the granularity of single system calls.
* **Cloud session** (`CloudSession`): double-checked locking around a rotating refresh token.
* **Polite poller** (`PolitePoll`): backoff, jitter and a hard rate ceiling.
* **Flush notification** (`FlushNotify`): two one-slot buffers, a worker and numbered
  acknowledgements.
* **Pending writebacks** (`WritebackPaths`, `WritebackPending`) and **integration handoff**
  (`IntegrationHandoff`); `Sorting` holds the order both sort by.

`dafny verify dfyconfig.toml` checks everything.

How a command refines a machine: the class keeps the current world and, as a ghost field, the
run that led to it; `Valid()` says it is a run. Between two effects of a command the methods
`OthersThanSource`, `OthersThanHandback` and `Others` stand for everybody else. Their bodies
do nothing, but a caller sees only their contracts, which allow any number of any steps the
others can take (`OthersLeaveSourceAloneFor`, `OthersLeaveHandbackAloneFor`,
`OthersUndisturbFor`, `HostLeavesCommandAloneFor`), so the commands are verified against
every schedule. What a command did is stated about the worlds it added to the run, not by
flags of its own. Two constants of a host say whether its saves and its output can fail at
all; a command may blame them only where they can.

Where the code turned out not to do what one might expect of it, the exact condition is
proved:

* Starting the destination by hand, or rerunning an unfinished verification, while a handback
  record says stopped, handing-back, handback-unknown or released can leave two writers;
  under every other record it cannot (`StartIsSafeIff`). The machine's `MayStart` is that
  condition.
* Creating the lifecycle lock and writing its owner are separate calls, and so are reading a
  stale lock and removing it. With both pairs atomic the lock excludes (`MutualExclusion`);
  with either pair apart two processes can hold it (`EmptyFileIsReclaimed`,
  `HarmfulReclaimIsReachable`).
* The cloud session's lock is reclaimed in two calls as well, so a process that dies anywhere
  between taking and releasing it can make a later refresh present a dead token; a death
  outside never can (`DeathIsHarmlessIff`).
* A flush acknowledged to a notifier was recorded after its first read, but the reconcile may
  have ended before the read or begun before the signal; `ReadFooledIff` and
  `SignalFooledIff` say exactly when.
* Jitter on durations near the 64-bit limit falls out of its band; `EveryDrawInBandIff` says
  exactly when.

## Model

| member | source | states |
|---|---|---|
| `SealStore.OperationKeepsOwnership` | internal/relayfile/checkpoint_seal.go:416-881 | consume, handback, resume and reconcile keep every seal record well formed; the source never owns a seal the destination still owns; consumer, preparation, release and resume marks, once set, never change |
| `SealStore.DivergedOnlyBeforeRelease` | internal/relayfile/checkpoint_seal.go:586-678 | the one refusal after which a destination may restart is never given after release and leaves the record alone |
| `SealStore.HandbackRetryRecovers` | internal/relayfile/checkpoint_seal.go:586-678 | a commit whose reply was lost is answered identically by any exact retry, in either phase and whatever the workspace did meanwhile, without changing the record |
| `SealStore.ResumeRetryRecovers` | internal/relayfile/checkpoint_seal.go:684-735 | a granted resume is idempotent on its key and refused for every other key |
| `SealStore.ResumeGrantedIff` | internal/relayfile/checkpoint_seal.go:684-735 | over the fields of the seal: when resume is granted, when it answers handback-required and when conflict; what a grant changes and proves; a refusal changes nothing |
| `SealStore.HandbackGrantedIff` | internal/relayfile/checkpoint_seal.go:586-678 | who may prepare or commit, and when, over the fields of the seal: only the consumer, under the key and digest prepared, while the workspace stands there |
| `SealStore.HandbackEffect` | internal/relayfile/checkpoint_seal.go:586-678 | ownership is released only by the consumer's commit of what it prepared at the current state; what each grant proves; a refusal changes nothing |
| `SealStore.HandbackDivergedIff` | internal/relayfile/checkpoint_seal.go:586-678 | exactly when the answer is diverged, consumer-conflict or unconsumed |
| `SealStore.ConsumeAcceptedIff` | internal/relayfile/checkpoint_seal.go:416-485 | exactly when a seal may be consumed, and that consuming sets the consumer and nothing else |
| `SealStore.ReconcileAcceptedIff` | internal/relayfile/checkpoint_seal.go:823-881 | exactly when an administrator's reconciliation is accepted, and that it marks the source and nothing else |
| `CutoverProofs.IssueAnsweredIff` | internal/relayfile/checkpoint_seal.go:281-414 | exactly when a seal is issued or issued again, at the expected digest, and what the receipt says |
| `CutoverProofs.RequestsUseTheirKeys` | internal/relayfile/checkpoint_seal.go:586-735 | requests are granted only under the keys of this lifecycle and this handback |
| `CutoverInvariant.SourceStepInv` | cmd/relayfile-cli/checkpoint_lifecycle.go:257-503 | every effect of checkpoint-seal and resume-seal keeps the cutover invariant |
| `CutoverInvariant.HandbackStepInv` | cmd/relayfile-cli/checkpoint_lifecycle.go:610-791 | every effect of handback-seal keeps the cutover invariant: a commit is only sent prepared and under the lease, and a fenced destination stays fenced |
| `CutoverInvariant.ServerInv` | internal/relayfile/checkpoint_seal.go:281-735 | the server handling any request ever sent, any number of times and at any later moment, with the reply delivered or lost, keeps the invariant; "diverged" reaches a destination only when no commit in the network can still release |
| `CutoverInvariant.EnvironmentInv` | internal/relayfile/checkpoint_seal.go:416-926 | foreign writes, consumption, reconciliation, purging, daemon deaths, permitted starts and garbled replies keep the invariant |
| `CutoverInvariant.CrashInv` | cmd/relayfile-cli/checkpoint_lifecycle.go:257-791 | a command dying between any two effects keeps the invariant |
| `CutoverInvariant.RunInv` | cmd/relayfile-cli/checkpoint_lifecycle.go:257-791 | the invariant holds in every world of every run |
| `CutoverTheorems.SingleWriter` | cmd/relayfile-cli/checkpoint_lifecycle.go:439-503 | single writer, end to end: in no reachable world is a source process alive while the destination serves |
| `CutoverTheorems.RestartNeedsProof` | cmd/relayfile-cli/checkpoint_lifecycle.go:289-307 | once a receipt is disclosed, a command stands before the restart routine only with a durable, valid proof for that very seal, and the server did return ownership |
| `CutoverTheorems.ReleasedNeverRestarts` | cmd/relayfile-cli/checkpoint_lifecycle.go:638-707 | from the moment the server released ownership, at every later moment of the run the destination does not serve and no handback command is about to restart it |
| `CutoverTheorems.ReportedReleaseHappened` | cmd/relayfile-cli/checkpoint_lifecycle.go:727-777 | a release that is durable or was printed did happen at the server |
| `CutoverProofs.RunProofs` | cmd/relayfile-cli/checkpoint_lifecycle.go:727-777 | in every world of every run, each receipt, proof and result in a reply, in a command's hands or on disk is what the server's record says |
| `CutoverProofs.EnvelopeIsTheSeal` | cmd/relayfile-cli/checkpoint_lifecycle.go:371-384 | every envelope ever printed names the seal the server keeps and the state it sealed |
| `CutoverProofs.ResultIsTheRelease` | cmd/relayfile-cli/checkpoint_lifecycle.go:760-777 | every result ever printed is the server's release of that seal, at the state released, with the digest the destination asked for |
| `CutoverProofs.ProofIsTheReturn` | cmd/relayfile-cli/checkpoint_lifecycle.go:1502-1519 | every durable proof is the server's return of ownership of that seal to this resume key |
| `CutoverTheorems.RecordsWellFormed` | cmd/relayfile-cli/checkpoint_lifecycle.go:1521-1540 | every reachable durable source record is well formed: which statuses carry a receipt, a proof, a live or an erased token |
| `CutoverTheorems.LeaseDiscipline` | cmd/relayfile-cli/checkpoint_lifecycle.go:334-383 | in every reachable world, for both mounts: an effect that acquires the lease finds it free and one that releases finds it held, so each acquisition is released exactly once; never held when idle or about to restart, never beside a serving daemon; once a stop has succeeded the mount is down |
| `CutoverTheorems.DownWhileHeld` | cmd/relayfile-cli/checkpoint_lifecycle.go:983-1006 | over any stretch of a run in which a command holds the lease, a mount that was down stays down |
| `CutoverTheorems.SourceEffects` | cmd/relayfile-cli/checkpoint_lifecycle.go:257-503 | a source command brings the mount up only at a restart, takes and gives up the lease only at the effects named so, and writes only its own copy |
| `CutoverTheorems.HandbackEffects` | cmd/relayfile-cli/checkpoint_lifecycle.go:610-791 | the same of a handback command |
| `CutoverTheorems.AmbiguityLeavesItDown` | cmd/relayfile-cli/checkpoint_lifecycle.go:727-777 | from an ambiguous answer on, over failed saves, kills and retries, the destination is at every later moment down under a retryable or released record, unless a command was definitively refused in between |
| `CutoverTheorems.RunPersists` | cmd/relayfile-cli/checkpoint_lifecycle.go:257-791 | what any world of a run fixes (release, terminal records, receipts, printed answers, no repeated requests) holds in every later world |
| `CutoverTheorems.TerminalNeverLeft` | cmd/relayfile-cli/checkpoint_lifecycle.go:289-307 | ready, recovery-failed and ownership-conflict records are never changed again |
| `CutoverTheorems.SealedOnce` | cmd/relayfile-cli/checkpoint_lifecycle.go:283-291 | a sealed lifecycle keeps its receipt, and no later command asks for another seal |
| `CutoverTheorems.ReplaysAreIdentical` | cmd/relayfile-cli/checkpoint_lifecycle.go:1282-1288 | all envelopes a lifecycle ever prints are equal, and so are all results a handback ever prints, across crashes and retries |
| `CutoverTheorems.ReleasedOnce` | cmd/relayfile-cli/checkpoint_lifecycle.go:638-649 | a durable release stays, and no later command repeats the prepare or commit request |
| `CutoverWitness.CutoverCompletes` | cmd/relayfile-cli/checkpoint_lifecycle.go:387-503 | a full cycle (seal, consume, serve, handback killed in mid-commit, late release, resume) is a run: the theorems are not about an empty set |
| `CutoverWitness.RefusedThenReady` | cmd/relayfile-cli/checkpoint_lifecycle.go:449-502 | a run in which resume is refused while the destination owns, leaves the source sealed, and after the release the next resume ends ready |
| `CutoverWitness.StartIsSafeIff` | cmd/relayfile-cli/checkpoint_lifecycle.go:653-707 | starting the destination by its handback record alone never finds the source alive if and only if there is no record, or it says preparing, failed-destination-ready or recovery-failed |
| `CutoverWitness.UnsafeStart` | cmd/relayfile-cli/checkpoint_lifecycle.go:727-777 | for each of stopped, handing-back, handback-unknown and released there is a reachable world with that record, the destination down and the source serving |
| `CutoverWitness.SafeStart` | cmd/relayfile-cli/checkpoint_lifecycle.go:610-708 | under the other records the source is down in every reachable world, and the machine admits the start |
| `CutoverWitness.SourceReturns` | cmd/relayfile-cli/checkpoint_lifecycle.go:439-503 | from any parked handback whose commit was sent the source can come back with its proof durable |
| `CutoverCommands.OthersLeaveSourceAlone` | cmd/relayfile-cli/checkpoint_lifecycle.go:257-503 | no step of anybody else touches a running source command's record, copy, lease or position, or brings its mount up |
| `CutoverCommands.OthersLeaveSourceAloneFor` | cmd/relayfile-cli/checkpoint_lifecycle.go:257-503 | nor does any number of their steps |
| `CutoverCommands.OthersLeaveHandbackAlone` | cmd/relayfile-cli/checkpoint_lifecycle.go:610-791 | the same for a running handback command |
| `CutoverCommands.OthersLeaveHandbackAloneFor` | cmd/relayfile-cli/checkpoint_lifecycle.go:610-791 | and for any number of steps |
| `CutoverCommands.RestartsOnlyWithProof` | cmd/relayfile-cli/checkpoint_lifecycle.go:449-488 | in every run, no world after a disclosure stands at the restart routine without the durable proof and the server's return of ownership |
| `CutoverCommands.HandbackConclusion` | cmd/relayfile-cli/checkpoint_lifecycle.go:610-791 | an attempt's outcome together with the theorems about runs: a printed result is the one durable release, and in a call begun after the release no world is at a restart and the destination never serves |
| `CutoverCommands.ResumeConclusion` | cmd/relayfile-cli/checkpoint_lifecycle.go:387-503 | a resume's outcome together with the theorems about runs |
| `CutoverCommands.Cluster.CheckpointSeal` | cmd/relayfile-cli/checkpoint_lifecycle.go:257-385 | the program refines the machine (every world it passes through extends a run); if any world of the call has the source being stopped, then the sealed receipt is durable, or the restart routine saw the source serve, or the code is recovery-failed and the routine was reached; which code each stored status gets, and each refusal if and only if its status; the disk or the output is blamed only where they can fail; no lease is kept |
| `CutoverCommands.Cluster.SealExisting` | cmd/relayfile-cli/checkpoint_lifecycle.go:283-307 | a sealed id replays its receipt with the record unchanged, an interrupted one is recovered, every other is terminal |
| `CutoverCommands.Cluster.SealActive` | cmd/relayfile-cli/checkpoint_lifecycle.go:317-384 | sealing a running source under a new id: what each exit code says about the worlds of the call |
| `CutoverCommands.Cluster.PrepareSeal` | cmd/relayfile-cli/checkpoint_lifecycle.go:317-333 | without the first save nothing is stopped |
| `CutoverCommands.Cluster.SealStopped` | cmd/relayfile-cli/checkpoint_lifecycle.go:350-384 | from a stopped mount with its lease held: a durable receipt, or the source seen serving, or recovery-failed after reaching the restart |
| `CutoverCommands.Cluster.RecoverUnsealed` | cmd/relayfile-cli/checkpoint_lifecycle.go:356-370 | without a seal the lease is released and the source restarted: nonconverged only if it was seen serving |
| `CutoverCommands.Cluster.DiscloseSealed` | cmd/relayfile-cli/checkpoint_lifecycle.go:371-384 | a receipt is printed only after it is durable; a failed save is reported as such only if the source was seen serving again |
| `CutoverCommands.Cluster.RecoverUnpersisted` | cmd/relayfile-cli/checkpoint_lifecycle.go:375-383 | the recovery after that failed save |
| `CutoverCommands.Cluster.IssueForStopped` | cmd/relayfile-cli/checkpoint_lifecycle.go:1008-1037 | asking for a seal ends before the release of the lease, with a receipt or none, the record untouched |
| `CutoverCommands.Cluster.RecoverPreseal` | cmd/relayfile-cli/checkpoint_lifecycle.go:289-304 | recovery before any seal reaches the restart; ready only if the source was seen serving there; the status reached is durable unless the save failed |
| `CutoverCommands.Cluster.StopSource` | cmd/relayfile-cli/checkpoint_lifecycle.go:983-1006 | success: old daemon gone and lease held; failure: no lease held |
| `CutoverCommands.Cluster.EnsureSource` | cmd/relayfile-cli/checkpoint_lifecycle.go:1101-1122 | polls for readiness, bringing the mount up at most once and only without the lease; true only if it serves |
| `CutoverCommands.Cluster.ResumeSeal` | cmd/relayfile-cli/checkpoint_lifecycle.go:387-503 | reports ready only with the ready record durable and the source seen serving; in no world of the call is a disclosed source at the restart without its durable proof; after a refusal the restart was not reached, the source is down, the receipt is kept without a proof, and the record is sealed again after handback-required and in conflict only after a conflicting answer; not-found and terminal if and only if their status |
| `CutoverCommands.Cluster.ResumePreseal` | cmd/relayfile-cli/checkpoint_lifecycle.go:424-438 | an unsealed lifecycle is resumed without a receipt; ready only if seen serving and saved |
| `CutoverCommands.Cluster.ResumeSealed` | cmd/relayfile-cli/checkpoint_lifecycle.go:439-502 | a sealed lifecycle is never at the restart after a refusal, and ready only if seen serving and saved |
| `CutoverCommands.Cluster.MarkResuming` | cmd/relayfile-cli/checkpoint_lifecycle.go:442-451 | the attempt is recorded first; a durable proof is not asked for again |
| `CutoverCommands.Cluster.BurnReceipt` | cmd/relayfile-cli/checkpoint_lifecycle.go:449-483 | the claim ends with the proof durable, or with none recorded, the restart not reached and the record the answer calls for |
| `CutoverCommands.Cluster.ClaimOwnership` | cmd/relayfile-cli/checkpoint_lifecycle.go:1203-1220 | the request and its answer: a proof to be saved, or a refusal |
| `CutoverCommands.Cluster.ReadClaim` | cmd/relayfile-cli/checkpoint_lifecycle.go:453-478 | what each answer leaves to be saved: sealed after handback-required, ownership-conflict after a conflict, a replay or an invalid proof, resuming after anything else, a proof after a valid one |
| `CutoverCommands.Cluster.FinishResume` | cmd/relayfile-cli/checkpoint_lifecycle.go:484-502 | after the proof: restart, converge, and "ready" only when saved |
| `CutoverCommands.Cluster.HandbackSeal` | cmd/relayfile-cli/checkpoint_lifecycle.go:610-708 | a printed result is the one durable release and it happened; a released record is replayed, unchanged, and its result printed; each refusal if and only if its status; an unknown result leaves the destination stopped and retryable with no restart in the call; nonconverged only if it was seen serving; in a call begun after release no world restarts it or has it serving; the disk or the output is blamed only where they can fail; no lease is kept |
| `CutoverCommands.Cluster.ReplayHandback` | cmd/relayfile-cli/checkpoint_lifecycle.go:644-649 | the durable result is printed again and nothing else happens |
| `CutoverCommands.Cluster.HandbackActive` | cmd/relayfile-cli/checkpoint_lifecycle.go:668-708 | a first attempt, from the first save |
| `CutoverCommands.Cluster.HandbackStopped` | cmd/relayfile-cli/checkpoint_lifecycle.go:701-707 | a first attempt that cannot record the stop gives the lease up before restarting |
| `CutoverCommands.Cluster.RetryHandback` | cmd/relayfile-cli/checkpoint_lifecycle.go:653-665 | a retry that cannot take the stopped mount's lease ends without a restart |
| `CutoverCommands.Cluster.AcquireStopped` | cmd/relayfile-cli/checkpoint_lifecycle.go:710-725 | takes the lease, or stops a destination that a first attempt left running, without any restart |
| `CutoverCommands.Cluster.RetryStopped` | cmd/relayfile-cli/checkpoint_lifecycle.go:660-665 | a retry that cannot record the stop ends without a restart |
| `CutoverCommands.Cluster.FinishHandback` | cmd/relayfile-cli/checkpoint_lifecycle.go:727-777 | restart only after the definitive refusal; unknown after anything ambiguous |
| `CutoverCommands.Cluster.AbandonHandback` | cmd/relayfile-cli/checkpoint_lifecycle.go:779-791 | the definitive refusal releases the lease, then restarts: nonconverged only if the destination was seen serving |
| `CutoverCommands.Cluster.RecordUnknown` | cmd/relayfile-cli/checkpoint_lifecycle.go:750-758 | an ambiguous answer leaves the destination down, never restarted, under a retryable record, whether or not the record could be updated |
| `CutoverCommands.Cluster.RecordRelease` | cmd/relayfile-cli/checkpoint_lifecycle.go:760-777 | a release is printed only once durable |
| `CutoverCommands.Cluster.PrepareAndCommit` | cmd/relayfile-cli/checkpoint_lifecycle.go:1070-1099 | the two requests end holding the lease, with the record untouched, released or failed, and without a restart |
| `CutoverCommands.Cluster.StopDestination` | cmd/relayfile-cli/checkpoint_lifecycle.go:983-1006 | as for the source; a retry that fails to stop ends idle |
| `CutoverCommands.Cluster.RecoverDestination` | cmd/relayfile-cli/checkpoint_lifecycle.go:689-700 | reports the failure only if the destination was seen serving, else that recovery failed; the matching status is durable unless the save failed |
| `CutoverCommands.Cluster.EnsureDestination` | cmd/relayfile-cli/checkpoint_lifecycle.go:1101-1122 | as for the source: at most one start, true only if it serves |
| `DestinationVerification.RunInv` | cmd/relayfile-cli/checkpoint_lifecycle.go:505-608 | the invariant of the verification machine in every state of every run: failing saves, kills anywhere, reruns, daemons that die or are started by others |
| `DestinationVerification.LeaseDiscipline` | cmd/relayfile-cli/checkpoint_lifecycle.go:596-607 | in every reachable state: acquiring finds the lease free and releasing finds it held, so each acquisition is released exactly once, by the command or by its death; never held when idle or at a restart, nor beside a serving daemon |
| `DestinationVerification.CommandEffects` | cmd/relayfile-cli/checkpoint_lifecycle.go:505-608 | the command brings the mount up only at a restart, takes and gives up the lease only at the effects named so, writes only its own copy, and compares only at its one comparison |
| `DestinationVerification.RecordsWellFormed` | cmd/relayfile-cli/checkpoint_lifecycle.go:1436-1456 | every durable verification record is well formed: no verdict before verified, one from then on |
| `DestinationVerification.VerifiedOnce` | cmd/relayfile-cli/checkpoint_lifecycle.go:535-577 | once a verdict is durable no later command, over any kills and reruns, compares again or changes it |
| `DestinationVerification.VerdictsAgree` | cmd/relayfile-cli/checkpoint_lifecycle.go:542-565 | all verdicts ever printed are equal, and are the durable converged one from then on |
| `DestinationVerification.HostLeavesCommandAloneFor` | cmd/relayfile-cli/checkpoint_lifecycle.go:505-608 | any number of steps of the host leave a running command alone and bring no mount up under its lease |
| `DestinationVerification.Verifier.Kill` | cmd/relayfile-cli/checkpoint_lifecycle.go:505-608 | a command killed anywhere leaves a state in which every promise holds and the next command may run |
| `DestinationVerification.Verifier.VerifySeal` | cmd/relayfile-cli/checkpoint_lifecycle.go:505-608 | the program refines the machine; if any state of the call holds the lease or is stopping the destination, the restart routine was reached and saw it serve, or the code is recovery-failed; a verdict is printed only durable and converged; at most one comparison, and none once settled; which code each stored status gets, and each refusal if and only if its status |
| `DestinationVerification.Verifier.Replay` | cmd/relayfile-cli/checkpoint_lifecycle.go:542-549 | a converged verdict is printed again only if the destination serves |
| `DestinationVerification.Verifier.FinishVerified` | cmd/relayfile-cli/checkpoint_lifecycle.go:550-565 | a durable verdict is carried to convergence without comparing again |
| `DestinationVerification.Verifier.Conclude` | cmd/relayfile-cli/checkpoint_lifecycle.go:838-858 | restart, then record convergence, then print: every exit but recovery-failed saw the destination serve |
| `DestinationVerification.Verifier.VerifyAgain` | cmd/relayfile-cli/checkpoint_lifecycle.go:566-570 | an attempt that died before stopping makes sure the destination runs, then starts over |
| `DestinationVerification.Verifier.VerifyActive` | cmd/relayfile-cli/checkpoint_lifecycle.go:579-607 | save, stop, save, compare: what each exit says about the states of the call, over failing stops and saves |
| `DestinationVerification.Verifier.ContinueStopped` | cmd/relayfile-cli/checkpoint_lifecycle.go:793-814 | the same for a verification whose command was killed with the destination stopped |
| `DestinationVerification.Verifier.VerifyAndRecover` | cmd/relayfile-cli/checkpoint_lifecycle.go:816-858 | compares exactly once; every exit reached the restart, and saw the destination serve unless recovery failed |
| `DestinationVerification.Verifier.Recover` | cmd/relayfile-cli/checkpoint_lifecycle.go:860-875 | the given failure only if the destination was seen serving, else recovery-failed; diverged and failed are told apart in the record, which is durable unless the save failed |
| `DestinationVerification.Verifier.Stop` | cmd/relayfile-cli/checkpoint_lifecycle.go:983-1006 | success holds the lease of a dead daemon; failure holds nothing |
| `DestinationVerification.Verifier.Ensure` | cmd/relayfile-cli/checkpoint_lifecycle.go:1101-1122 | at most one start, without the lease; true only if it serves |
| `LifecycleRegistry.GenerationsIncrease` | cmd/relayfile-cli/checkpoint_lifecycle.go:1593-1604 | over every command sequence ids stay bound and, per root and session, generations strictly increase in creation order |
| `LifecycleRegistry.IdentityIsForLife` | cmd/relayfile-cli/checkpoint_lifecycle.go:283-307 | after any commands an id answers for the root, session and generation it was created with and conflicts with a request that differs in any of them |
| `LifecycleRegistry.NewIdAnswers` | cmd/relayfile-cli/checkpoint_lifecycle.go:309-333 | under a new id: conflict if and only if that root, session and generation is stored, created if and only if every stored generation is smaller and the mount is active and the save succeeds |
| `LifecycleRegistry.ApplyOrdered` | cmd/relayfile-cli/checkpoint_lifecycle.go:274-315 | one command keeps the order and every earlier binding |
| `LifecycleRegistry.FirstBindingWins` | cmd/relayfile-cli/checkpoint_lifecycle.go:1497-1500 | over any handback and verification calls an id continues exactly for the root, receipt and consumer key it was first bound to and conflicts with all others |
| `LifecycleRegistry.BindingsCarryNoToken` | cmd/relayfile-cli/checkpoint_lifecycle.go:1484-1495 | no binding ever carries a token, and a call that does is refused |
| `LifecycleRegistry.AttemptDirectory.Open` | cmd/relayfile-cli/checkpoint_lifecycle.go:638-645 | the opening of handback-seal and verify-seal computes that answer and the new bindings, and keeps every earlier one |
| `LifecycleRegistry.Directory.Load` | cmd/relayfile-cli/checkpoint_lifecycle.go:1565-1578 | finds the record of an id if and only if there is one |
| `LifecycleRegistry.Directory.Find` | cmd/relayfile-cli/checkpoint_lifecycle.go:1580-1591 | finds a lifecycle of that root, session and generation if and only if one exists |
| `LifecycleRegistry.Directory.RejectStale` | cmd/relayfile-cli/checkpoint_lifecycle.go:1593-1604 | stale if and only if some stored generation of that root and session is not smaller |
| `LifecycleRegistry.Directory.BeginSealing` | cmd/relayfile-cli/checkpoint_lifecycle.go:274-315 | the opening of checkpoint-seal computes the decision and the new directory, and creates only beyond every stored generation |
| `LifecycleLock.MutualExclusion` | cmd/relayfile-cli/checkpoint_lifecycle.go:1648-1697 | in every schedule in which creating the file with its payload, and finding it abandoned and removing it, are each one step: at most one live process believes it holds the lock, whoever dies |
| `LifecycleLock.ReleaseRemovesOwn` | cmd/relayfile-cli/checkpoint_lifecycle.go:1670-1675 | in every such schedule a release removes the releaser's own file although comparing and removing are two calls |
| `LifecycleLock.ComparedReleaseIsOwn` | cmd/relayfile-cli/checkpoint_lifecycle.go:1670-1675 | in any schedule whatever, a release whose comparison came at once before it removes its own file |
| `LifecycleLock.AtomicIsHarmless` | cmd/relayfile-cli/checkpoint_lifecycle.go:1680-1695 | in every such schedule no reclaim removes a live owner's file |
| `LifecycleLock.AtomicHalves` | cmd/relayfile-cli/checkpoint_lifecycle.go:1648-1697 | the schedule condition is the conjunction of its two halves |
| `LifecycleLock.HarmlessMutualExclusion` | cmd/relayfile-cli/checkpoint_lifecycle.go:1648-1697 | mutual exclusion for any schedule, atomic or not, without such a removal |
| `LifecycleLock.HarmfulReclaimLetsASecondIn` | cmd/relayfile-cli/checkpoint_lifecycle.go:1680-1695 | the condition is exact: after any harmful reclaim a second process can enter |
| `LifecycleLock.HarmfulReclaimIsReachable` | cmd/relayfile-cli/checkpoint_lifecycle.go:1680-1695 | with creation atomic but reclaim in two calls, two processes that found one dead owner both end up holding the lock |
| `LifecycleLock.EmptyFileIsReclaimed` | cmd/relayfile-cli/checkpoint_lifecycle.go:1657-1669 | with reclaim atomic but creation in two calls, a file not yet written is taken and two processes own the lock |
| `CloudSession.OnlyCurrentTokensPresented` | cmd/relayfile-cli/cloudauth.go:435-502 | in every run in which nobody dies inside the critical section, nobody presents a refresh token that was already rotated |
| `CloudSession.RollsOnlyWhenDue` | cmd/relayfile-cli/cloudauth.go:151-173 | a token is presented only for a session with five minutes of access or a day of refresh left, or less, or an unreadable expiry |
| `CloudSession.ReclaimsIffStale` | cmd/relayfile-cli/cloudauth.go:335-344 | a lock is set out to be removed if and only if it is thirty seconds old |
| `CloudSession.OneInSection` | cmd/relayfile-cli/cloudauth.go:322-354 | in every such run at most one process is between taking and releasing the lock, although stale locks are found and removed in two calls |
| `CloudSession.FileEndsNewest` | cmd/relayfile-cli/cloudauth.go:480-502 | in every such run, whenever nobody is about to write, the file holds the server's newest pair |
| `CloudSession.DeathIsHarmlessIff` | cmd/relayfile-cli/cloudauth.go:335-354 | the condition is exact: after a death, however the others go on, no refresh is ever rejected if and only if the process was outside the critical section |
| `CloudSession.DyingInsideIsHarmful` | cmd/relayfile-cli/cloudauth.go:335-354 | after a death anywhere inside, two newcomers can both reclaim, enter and present one token, and one is rejected |
| `CloudSession.RunBase` | cmd/relayfile-cli/cloudauth.go:212-247 | in every run, crashes included, only what the server issued is ever on disk or in hand |
| `CloudSession.ExactlyOneRefresh` | cmd/relayfile-cli/cloudauth.go:151-173 | in every run in which nobody dies inside and the rotated pair is outside both windows, the server rotates at most once, and every process that waited and succeeded returns that pair |
| `CloudSession.OthersUndisturb` | cmd/relayfile-cli/cloudauth.go:322-354 | steps and deaths of other processes and the passing of time leave a process where it stands, and only add to what the server issued |
| `CloudSession.OthersUndisturbFor` | cmd/relayfile-cli/cloudauth.go:322-354 | so does any number of them |
| `CloudSession.Machine.AcquireLock` | cmd/relayfile-cli/cloudauth.go:322-354 | polling, and reclaiming in two calls, refine the machine and end locked or failed |
| `CloudSession.Machine.EnsureSession` | cmd/relayfile-cli/cloudauth.go:435-502 | the call refines the machine in every run; what it returns was issued by the server; it returns what it first read, without waiting, if and only if more than 300 seconds of access and 86400 of refresh are left; and unless somebody died inside nobody was rejected |
| `CloudSession.Machine.InsideLock` | cmd/relayfile-cli/cloudauth.go:480-502 | the second look and the roll under the lock |
| `CloudSession.Machine.Roll` | cmd/relayfile-cli/cloudauth.go:358-428 | a rotated pair is written back before it is returned; a rejected refresh yields nothing |
| `PolitePoll.WithDefaults` | cmd/relayfile-cli/polite_poll.go:60-86 | every option that makes sense is kept, the others become five seconds, a minute, the nearer end of [0, 1] and one call a second |
| `PolitePoll.BackoffIsCappedExponential` | cmd/relayfile-cli/polite_poll.go:194-210 | overflow included, the backoff is min(minInterval * 2^(k-1), maxInterval) |
| `PolitePoll.BackoffMonotone` | cmd/relayfile-cli/polite_poll.go:194-210 | more failures never shorten the wait |
| `PolitePoll.BackoffDoubles` | cmd/relayfile-cli/polite_poll.go:194-210 | the first failure waits the least interval and each further one twice as long, up to the cap |
| `PolitePoll.TrailingFailuresAreLast` | cmd/relayfile-cli/polite_poll.go:164-183 | the failure count is the length of the run of failures the history ends with |
| `PolitePoll.JitterSpreads` | cmd/relayfile-cli/polite_poll.go:213-227 | the lowest draw takes the whole fraction off and the middle one changes nothing |
| `PolitePoll.JitterBounds` | cmd/relayfile-cli/polite_poll.go:213-227 | the upper bound always holds, the lower bound if and only if the product does not overflow or is below the millisecond floor |
| `PolitePoll.InRangeNeverOverflows` | cmd/relayfile-cli/polite_poll.go:213-227 | (1 + jitter) * maxInterval within 64 bits excludes every overflow |
| `PolitePoll.SomeDrawOverflowsIff` | cmd/relayfile-cli/polite_poll.go:213-227 | some random draw overflows if and only if (1 + f) * d exceeds the 64-bit range |
| `PolitePoll.EveryDrawInBandIff` | cmd/relayfile-cli/polite_poll.go:213-227 | every draw keeps the lower bound if and only if (1 + f) * d is in range or the bound is at most a millisecond |
| `PolitePoll.OverflowBreaksTheBand` | cmd/relayfile-cli/polite_poll.go:213-227 | a concrete duration outside that range is jittered below the band |
| `PolitePoll.WaitBounds` | cmd/relayfile-cli/polite_poll.go:164-190 | every wait lies between max(hardMin, (1-f)*minInterval) and max(hardMin, 1ms, (1+f)*maxInterval), up to truncation; the lower bound under the range condition |
| `PolitePoll.PolitePoll` | cmd/relayfile-cli/polite_poll.go:131-190 | the loop: calls keep the hard gap, and each wait is the specified function of the results so far |
| `PolitePoll.PollLoop` | cmd/relayfile-cli/polite_poll.go:141-190 | the same for effective options |
| `PolitePoll.NextWait` | cmd/relayfile-cli/polite_poll.go:164-190 | one iteration's wait refines the function of the result history, with the length of the trailing failure run |
| `PolitePoll.Paced` | cmd/relayfile-cli/polite_poll.go:146-158 | the floor before a call restores the hard gap and sleeps only when needed |
| `PolitePoll.RateCeiling` | cmd/relayfile-cli/polite_poll.go:131-190 | at most ceil(T / gap) of calls a gap apart start in any half-open window of length T |
| `PolitePoll.PollerNeverStorms` | cmd/relayfile-cli/polite_poll.go:131-190 | no run of the poller starts more calls in any window than the caller's own limit per second allows, or one a second if the caller set none |
| `FlushNotify.NoLostFlush` | cmd/relayfile-mount/notify_flush_unix.go:17-36 | at every moment after any signal a token is in one of the slots or in the relay's hand, or a reconcile has begun since |
| `FlushNotify.AcksIncrease` | cmd/relayfile-mount/notify_flush.go:37-52 | acknowledgement numbers strictly increase |
| `FlushNotify.SuccessMeansFlushed` | cmd/relayfile-mount/notify_flush_unix.go:42-84 | success means a successful reconcile acknowledged after the initial read; it ended after the read if no successful reconcile was unacknowledged at the read, and began after the signal if no older success was possible at the signal |
| `FlushNotify.SignalFooledIff` | cmd/relayfile-mount/notify_flush_unix.go:42-84 | a notifier that signals now can be told of success by a reconcile begun before if and only if one is running, or has ended well and is not acknowledged, or is a newer success already there |
| `FlushNotify.ReadFooledIff` | cmd/relayfile-mount/notify_flush_unix.go:42-84 | a notifier that reads now can be told of success by a reconcile that ended before if and only if one has ended well and is not acknowledged |
| `FlushNotify.WorkerCanAcknowledge` | cmd/relayfile-mount/notify_flush.go:22-52 | a busy worker can always finish and acknowledge |
| `WritebackPaths.NormalizeWritebackListPath` | cmd/relayfile-cli/writeback_list.go:340-352 | the "//" replacement loop terminates and equals the one-pass collapse of every slash run |
| `WritebackPaths.ReplaceKeepsCollapse` | cmd/relayfile-cli/writeback_list.go:348-350 | one round of non-overlapping replacement leaves the collapsed path the same |
| `WritebackPaths.CollapseHasNoPair` | cmd/relayfile-cli/writeback_list.go:348-350 | the collapsed path has no double slash |
| `WritebackPaths.CollapseKeepsLetters` | cmd/relayfile-cli/writeback_list.go:348-350 | collapsing drops slashes only |
| `WritebackPaths.TrimLeftDrops` | cmd/relayfile-cli/writeback_list.go:340-342 | trimming on the left drops characters of the class only |
| `WritebackPaths.NormalIsIdempotent` | cmd/relayfile-cli/writeback_list.go:340-352 | normalising twice is normalising once |
| `WritebackPaths.RemotePathIsJoin` | cmd/relayfile-cli/writeback_list.go:217-230 | below a root a clean relative path is appended unchanged |
| `WritebackPaths.RemoteRoot` | cmd/relayfile-cli/writeback_list.go:217-230 | the root maps to its normal form, or to the slash |
| `WritebackPaths.RemotePathIsInjective` | cmd/relayfile-cli/writeback_list.go:217-230 | for a fixed root different clean relative paths have different remote paths |
| `WritebackPending.ReadPendingWritebackItems` | cmd/relayfile-cli/writeback_list.go:105-178 | absent state lists nothing, unusable state or a failed walk fails, otherwise the list is sorted and holds every item exactly as often as there are waiting keys and untracked paths behind it |
| `WritebackPending.PendingItems` | cmd/relayfile-cli/writeback_list.go:131-178 | the two loops and the sort, for every map iteration order |
| `WritebackPending.VisitTracked` | cmd/relayfile-cli/writeback_list.go:133-162 | the branches for one tracked file agree with the one-line condition for waiting |
| `WritebackPending.TrackedIsListedWhen` | cmd/relayfile-cli/writeback_list.go:133-162 | case by case when a tracked file is listed: dirty and writable always, read-only never, denied or matching and clean never, missing or differing always |
| `WritebackPending.ProviderIsFirstSegment` | cmd/relayfile-cli/writeback_list.go:354-363 | the provider is the first segment of the path |
| `WritebackPending.LocalWritebackHashes` | cmd/relayfile-cli/writeback_list.go:180-215 | the walk builds the map in which, of two files with one path, the later wins |
| `WritebackPending.PathsDistinctIff` | cmd/relayfile-cli/writeback_list.go:105-178 | no path is listed twice if and only if no two waiting keys share a normal form |
| `WritebackPending.PendingPathsExact` | cmd/relayfile-cli/writeback_list.go:131-178 | the paths listed are exactly the normal forms of waiting keys and the untracked local paths |
| `WritebackPending.PendingPathsIncrease` | cmd/relayfile-cli/writeback_list.go:318-325 | with distinct nonblank normal forms ids are paths and strictly increase |
| `WritebackPending.PendingListIsUnique` | cmd/relayfile-cli/writeback_list.go:105-178 | with such keys the list does not depend on the map iteration order |
| `WritebackPending.EveryFileIsFound` | cmd/relayfile-cli/writeback_list.go:180-215 | when paths are told apart every file is in the map with its own hash |
| `WritebackPending.EmptyListMeansInSync` | cmd/relayfile-cli/writeback_list.go:105-178 | an empty list over a clean tree means every writable, allowed tracked file with a hash is on disk with that hash, and every file on disk is tracked |
| `IntegrationHandoff.BuildIntegrationHandoff` | cmd/relayfile-cli/integration_discovery.go:727-752 | an exact transpose: same multiset of deliveries, resources strictly increasing, event lists sorted and nonempty |
| `IntegrationHandoff.GroupByResource` | cmd/relayfile-cli/integration_discovery.go:728-737 | the map groups exactly the deliveries read |
| `IntegrationHandoff.SortedResources` | cmd/relayfile-cli/integration_discovery.go:738-742 | the map's keys, each once, strictly increasing |
| `IntegrationHandoff.TransposeIsUnique` | cmd/relayfile-cli/integration_discovery.go:727-752 | a bag of deliveries has one exact transpose |
| `IntegrationHandoff.HandoffIgnoresOrder` | cmd/relayfile-cli/integration_discovery.go:727-752 | permuted events give the same handoff |
| `IntegrationHandoff.NormalizeIntegrationEvents` | cmd/relayfile-cli/integration_discovery.go:602-620 | sorts each event's paths and then, stably, the events by name; nothing else of an event changes and no delivery does |
| `IntegrationHandoff.NormalizedHandoffIsSame` | cmd/relayfile-cli/integration_discovery.go:602-620 | describing a normalised catalog gives the same handoff |
| `Sorting.SortIsStable` | cmd/relayfile-cli/integration_discovery.go:609-609 | sorting keeps elements that compare alike in their order |
| `Sorting.PrefixIsBelow` | cmd/relayfile-cli/integration_discovery.go:613-620 | a proper prefix sorts first |
| `Sorting.FirstDifferenceDecides` | cmd/relayfile-cli/integration_discovery.go:613-620 | otherwise the smaller character at the first difference does |
| `IntegrationHandoff.FilterSubscribableEvents` | cmd/relayfile-cli/integration_discovery.go:443-455 | the filter keeps exactly the subscribable events in order |
| `IntegrationHandoff.SubscribableIff` | cmd/relayfile-cli/integration_discovery.go:453-455 | an event is subscribable if and only if its trimmed support, in lower case, is that word |
| `IntegrationHandoff.BuildIntegrationDescription` | cmd/relayfile-cli/integration_discovery.go:642-662 | handoff of the subscribable events, one exclusion for each of the others in order |
| `IntegrationHandoff.EachEventOnce` | cmd/relayfile-cli/integration_discovery.go:642-662 | every occurrence of an event is handed off or excluded, never both |
| `IntegrationHandoff.DeliveredIff` | cmd/relayfile-cli/integration_discovery.go:727-752 | a resource delivers an event type if and only if an event of that name has that path, or no path and the empty resource |
| `IntegrationHandoff.DescriptionIgnoresOrder` | cmd/relayfile-cli/integration_discovery.go:642-662 | permuting the events changes neither the handoff nor how often anything is excluded |

## Left out

- HTTP, credentials, JSON and strict decoding, regular expressions, SHA-256, timestamps, file modes and symbolic links: requests, digests, keys and roots are abstract values compared for equality, hashes are taken to be injective.
- One lifecycle id and one handback id are followed in the cutover; other lifecycles of the same root appear in `LifecycleRegistry` only, and resuming an older lifecycle beside a newer one is not a claim.
- Rotation of the seal token when an unconsumed seal is issued again: the repeated issue returns the same seal.
- The event cursor of a seal is folded into the workspace revision, because every mutation takes a larger revision (internal/relayfile/store.go:3809-3812).
- A mount process that outlives its killed parent before it takes the lease, and one that has given its lease up but not exited yet: a daemon counts as a writer while it holds the lease, since acquireStoppedHandbackLease checks the lease and not the process.
- Lifecycle commands with one id raced on two different roots: the directory takes commands one at a time.
- Failing writes while a lifecycle lock file is created, process id reuse, and lock waiting times.
- CloudSession: sessions from the environment, login and logout, incomplete session files, a refresh reply lost after rotation, a failed write-back, and termination of the lock loop, which reclaims without looking at its deadline; time does not pass a live holder's stale limit.
- PolitePoll: floating-point rounding; products are exact reals, truncated, and one too large converts to the least duration.
- PolitePoll.PollerNeverStorms: asks that at most a thousand million calls per second be allowed, because beyond that the hard gap is zero and there is no ceiling to state.
- FlushNotify: liveness, the polling deadline and the ack file's other contents.
- DestinationVerification: the comparison itself is one outcome with a verdict; the verification and the handback of one destination are separate machines, kept apart by the root's lifecycle lock.
- CutoverCommands.Cluster.EnsureSource: a failure to become ready may be any timeout or failed start; the contract does not say how long the routine tried.
- WritebackPending: the walk of the tree is given as the list of regular, unreserved files in walk order; dead-letter items are not modelled.
- IntegrationHandoff: only the fields of an event that the handoff and the exclusions use; the rest of the description is constant text.
- sort.Strings, sort.Slice and sort.SliceStable are one insertion sort on a value, specified by order and contents; sorting in place is not modelled. Strings are compared by code points, which for UTF-8 is the byte order.
- Command specifications, control plane, digest, rendering, catalog fetching, metadata and the platform daemon files: they would add only easy members.
