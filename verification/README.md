# o2-mcp in Dafny

A model of the control plane of o2-mcp, the server that runs Slurm work on a remote
cluster, and proofs of what it promises over whole runs. `dafny verify dfyconfig.toml`
checks everything.

**Submission** (`SubmissionProtocol`, `SubmissionSafety`, `ClaimRetention`). Any number of
`submit_stage` calls and registry repairs share one durable store of write-once evidence, one
invocation marker per identity, a set of lifecycle claims and a scheduler. Each step is one
atomic backend operation. A call may crash between any two, a response may be lost after its
write, and an `sbatch` may be accepted, or its job become visible, at any later time. The backend
contract (`src/o2mcp/runorg/execution_backend.py`, lines 39-94) is the environment: create-once
files, exact-byte compare-and-clear, and truthful `DEFINITELY_*` outcomes.

**Evidence** (`EvidenceStore`, `EvidenceReader`, `EvidenceEngine`, `EvidenceProtocol`,
`EvidenceInvariant`, `EvidenceAuthentication`, `EvidenceDerivation`, `EvidenceDrafts`,
`EvidenceReconciliation`, `EvidenceSafety`, `EvidenceProgress`, `EvidenceRuns`, `EvidenceLoops`,
`EvidenceConditions`). The strict readers of records, attempt
contracts, follow-up authorizations, reconciliation receipts and task evidence call one another;
they are total functions that descend in (dependency rank, attempt). What the engine derives
through them is a state machine of single strict reads and single publications: a derivation, a
reconciliation and a follow-up each read the store at many moments, between which any number of
other coordinators publish, and publish later still. `EvidenceRuns` shows that, left undisturbed,
these steps come to what the code computes from one store. That an attempt gets at most one of
record and rejection, and every record its own job, is what the submission part proves; it is the
guard of the publishing steps here. Two side conditions are explicit. `OrdersAgree` (array-index
order and task-ID order coincide on every stage) is needed: otherwise the engine wedges itself
(`WrongOrderWedges`). A run is timely when each published follow-up has its trigger job in the
trigger's slot; this is exactly when the readers accept everything (`AcceptedIffTimely`), and
untimely runs exist (`UntimelyFollowupHappens`).

**Attempt bounds** (`StageGraph`, `AttemptBounds`). The depth-first order of the stage graph
and the memoised attempt bounds, with the closed form they compute.

**Policy** (`PolicyStore`, `PolicyRuns`). The workstation policy file, its operations under the
mutex, and runs of several clients and broker daemons with crashes, disable, corruption and repair.
The clock never runs backwards, UUIDs are fresh, the file is not deleted, and its modification
time is not before its last write.

**Broker** (`Broker`). Callers, the daemon and the remote helper over one serialized channel.

**Codecs** (`Framing`, `BoundedOutput`, `Shlex`, `SshOptions`, `RsyncArgv`). Length-prefixed frames
under any chunking, bounded output capture with UTF-8 replacement and JSON escapes, POSIX shell
quoting, and the two parsers of a transport command line.

**Billing** (`Billing`). Floored prices and their memory bands over exact reals.

Where the code does less than its comments or callers suggest, the model follows the code and states
exactly when the property holds:

- The claim named by a live marker can be lost in two ways. A call whose claim was retired as a
  loser can still win a marker that was compare-cleared in between (`LateWinnerHappens`); and the
  rejection of a nested follow-up leaves the outer call as `SubmissionRejected`, which releases the
  outer claim before its own record is synchronized (`EscapeHappens`). `ClaimRetained` shows that
  nothing else loses it. The transition's own scan still prevents harm (`TransitionOvertakesNothing`).
- Only the latest accepted retry is meant to propagate to dependents
  (`src/o2mcp/runorg/execution_engine.py`, lines 263-272), but it is looked up before the dependents'
  jobs are. A newer acceptance in between leaves an authorization that every scan refuses
  (`UntimelyFollowupHappens`). With agreeing task orders nothing else makes a reader refuse
  (`AcceptedIffTimely`).
- A finished login recorded as a success with a nonzero return code is written and then refused by
  every reader (`ValidityPreserved`, `UnreadableSuccessHappens`).
- A short rsync cluster ending in a bare `e=` makes the two argv parsers disagree
  (`RsyncOperandsKeptIff`, `BareEqualsChangesOperands`).
- `resolve_request` takes a negative CPU count, which reaches the price bands as a negative memory
  size (`LargestSameIff`, `NegativeSizeMisprices`). The pricing tool refuses such a count before it
  gets there (`src/o2mcp/server.py`, lines 351-362). `OfferedIff` is the exact condition.

## Model

| member | source | states |
|---|---|---|
| `SubmissionSafety.InvNext` | src/o2mcp/runorg/execution_engine.py:163-486 | every step of every call, of the scheduler, of a registry repair and of a transition keeps the inductive invariant: jobs belong to the one call the marker names, records and rejections to the published intent, and each point of the program knows what it assumes |
| `SubmissionSafety.AtMostOneJob` | src/o2mcp/runorg/execution_engine.py:299-467 | in every state of every run at most one job was accepted per identity, no identity has both a record and a rejection, a record names the accepted job and the published contract, and a rejected identity has no job |
| `ClaimRetention.HoldersNext` | src/o2mcp/runorg/execution_registry.py:58-142 | claims queued in an outbox or about to be released always belong to the same operation |
| `ClaimRetention.RetainedStep` | src/o2mcp/runorg/execution_registry.py:215-285 | a step loses the claim named by a live marker if and only if it is a late winner or an escape |
| `ClaimRetention.ClaimRetained` | src/o2mcp/runorg/execution_engine.py:129-146 | over a whole run the claim is retained until a synchronized record or a rejection, if and only if no step of the run is a late winner or an escape |
| `ClaimRetention.LateWinnerNeedsClear` | src/o2mcp/runorg/execution_engine.py:349-373 | a marker is won with a retired claim only if that identity's marker was compare-cleared earlier |
| `ClaimRetention.ClaimRetainedUncleared` | src/o2mcp/runorg/execution_engine.py:129-146 | on runs that never clear the identity's marker, only an escape loses the claim |
| `ClaimRetention.NoClaimsMeansResolved` | src/o2mcp/runorg/transition_coordinator.py:51-52 | without late winners, an empty claim set already means that every invocation has a durable outcome |
| `ClaimRetention.TransitionOvertakesNothing` | src/o2mcp/runorg/transition_coordinator.py:51-148 | once a transition has begun no sbatch is in flight or about to be issued, and the records name every accepted job |
| `ClaimRetention.LateWinnerHappens` | src/o2mcp/runorg/execution_engine.py:336-373 | a concrete run in which a call invokes sbatch while no claim is live |
| `ClaimRetention.EscapeHappens` | src/o2mcp/runorg/execution_engine.py:467-486 | a concrete run, for every retry attempt, in which the owner's claim is released while its registry update is pending |
| `EvidenceStore.OrderMatters` | src/o2mcp/runorg/execution_rendering.py:22-41 | the two task orders agree if and only if every sorted retry set reads back as the tuple it was written |
| `EvidenceInvariant.SettledChain` | src/o2mcp/runorg/execution_authorization.py:54-66 | down to the start of its generation, every attempt before an ordinary retry has a record or a rejection |
| `EvidenceInvariant.AuthorizedGrows` | src/o2mcp/runorg/execution_authorization.py:20-73 | an authorization once derivable stays justified whatever is published before it, including a follow-up for the same attempt |
| `EvidenceAuthentication.RecordsRead` | src/o2mcp/runorg/execution_evidence.py:344-381 | on a good store the strict record reader returns exactly the stored records |
| `EvidenceAuthentication.ContractRead` | src/o2mcp/runorg/execution_evidence.py:384-431 | the committed contract of an attempt is its intent, and a follow-up's exactly when the intent is the follow-up's full-task replacement |
| `EvidenceAuthentication.FollowupRead` | src/o2mcp/runorg/execution_evidence.py:41-105 | every stored follow-up is authenticated with its own dependency jobs |
| `EvidenceAuthentication.ReceiptRead` | src/o2mcp/runorg/execution_evidence.py:266-295 | every stored reconciliation receipt is accepted together with its task evidence |
| `EvidenceAuthentication.ReceiptSupported` | src/o2mcp/runorg/execution_evidence.py:611-678 | a receipt whose tasks sit where their newest verdicts put them passes the task-evidence validation |
| `EvidenceDerivation.SameDeps` | src/o2mcp/runorg/execution_authorization.py:76-139 | above a record and up to the next committed follow-up every attempt has the same dependency jobs |
| `EvidenceDerivation.OrdinaryDepsLinked` | src/o2mcp/runorg/execution_authorization.py:76-139 | the derived dependencies of an ordinary retry are those of the attempt before it, unless nothing was ever accepted |
| `EvidenceDerivation.OwningRead` | src/o2mcp/runorg/execution_evidence.py:322-341 | the scan for the owning follow-up passes over no committed generation and never raises |
| `EvidenceDerivation.DerivedIsAuthorized` | src/o2mcp/runorg/execution_authorization.py:20-73 | whatever one store gives an attempt is an authorization the invariant admits |
| `EvidenceDrafts.MovesOk` | src/o2mcp/runorg/execution_authorization.py:20-139 | each further read of a derivation, in whatever state it is made, keeps justified what the reads before it found |
| `EvidenceDrafts.DraftGrows` | src/o2mcp/runorg/execution_authorization.py:20-139 | what a derivation has read so far survives everything published meanwhile |
| `EvidenceDrafts.EndsOk` | src/o2mcp/runorg/execution_authorization.py:76-139 | the intent at the end of reads made at different moments is one the invariant admits |
| `EvidenceDrafts.RebindsOk` | src/o2mcp/runorg/execution_followups.py:86-300 | a follow-up whose trigger, own records and prerequisite jobs were read at different moments is bound to authentic, distinct jobs above an accepted attempt |
| `EvidenceReconciliation.SuccessIsFinal` | src/o2mcp/runorg/execution_engine.py:604-634 | a task that succeeded is in no later accepted attempt of its generation |
| `EvidenceReconciliation.DecisionPartitions` | src/o2mcp/runorg/execution_engine.py:618-634 | reconciliation puts every task in exactly one of three categories |
| `EvidenceReconciliation.DecisionPlaces` | src/o2mcp/runorg/execution_engine.py:729-809 | where a decision puts a task, the task's newest durable verdict calls for it |
| `EvidenceReconciliation.SnapshotTaken` | src/o2mcp/runorg/execution_engine.py:577-579 | the records a reconciliation starts from suffice for every decision it can come to, in every generation |
| `EvidenceReconciliation.PassesOk` | src/o2mcp/runorg/execution_evidence.py:322-341 | passing over a follow-up that does not own its attempt keeps the earlier snapshot sufficient |
| `EvidenceReconciliation.SettlesOk` | src/o2mcp/runorg/execution_engine.py:590-600 | cutting the snapshot at the owning follow-up leaves exactly the records its generation is judged by |
| `EvidenceReconciliation.JudgesOk` | src/o2mcp/runorg/execution_engine.py:604-618 | a task's verdict rests on an attempt of the generation, and stays decisive whatever is published later |
| `EvidenceReconciliation.DecidesOk` | src/o2mcp/runorg/execution_engine.py:620-698 | every receipt decided from reads made at different moments satisfies the receipt rules, the retry bound and the failure rule |
| `EvidenceSafety.KeepsRead` | src/o2mcp/runorg/execution_engine.py:556-727 | every single read of a derivation, reconciliation or follow-up leaves all that is pending justified |
| `EvidenceSafety.SoundNext` | src/o2mcp/runorg/execution_engine.py:556-727 | every step of every coordinator keeps the evidence invariant and only adds documents, including a follow-up that lost its attempt before it was published |
| `EvidenceSafety.StrictReadersAcceptEverything` | src/o2mcp/runorg/execution_evidence.py:266-431 | in every state of a timely run the strict readers accept exactly what is stored, so no reader ever wedges on the engine's own evidence |
| `EvidenceSafety.EvidenceStability` | src/o2mcp/runorg/execution_evidence.py:344-451 | a record accepted once is accepted, with the same tasks and dependency jobs, in every later state, also when a follow-up for its own attempt is published after it |
| `EvidenceSafety.GenerationIsolation` | src/o2mcp/runorg/execution_authorization.py:76-139 | accepted attempts with no owned follow-up between them carry identical dependency jobs |
| `EvidenceSafety.SuccessStays` | src/o2mcp/runorg/execution_engine.py:567-573 | successful evidence stays successful and its task is in no later record of the generation |
| `EvidenceSafety.FrozenVerdicts` | src/o2mcp/runorg/execution_evidence.py:583-608 | every stored verdict is the one recomputed from its raw observation, and reconciliation classifies a task with successful evidence as a success |
| `EvidenceSafety.RetryIsUnique` | src/o2mcp/runorg/execution_engine.py:640-683 | a retry receipt is the only receipt justified for its attempt |
| `EvidenceSafety.RetryPathIsNeverOverwritten` | src/o2mcp/runorg/execution_engine.py:640-698 | once a retry receipt was derived for an attempt, every receipt derived for it then or later is the same one |
| `EvidenceProgress.DerivedIff` | src/o2mcp/runorg/execution_authorization.py:20-73 | an authorization is derived if and only if the bound admits the attempt, every prerequisite was launched and the attempt is open, and it names the tasks and dependency jobs the raw documents call for |
| `EvidenceProgress.ChainIsAccepted` | src/o2mcp/runorg/execution_evidence.py:175-192 | the rejections behind the last accepted attempt of a generation always name its retry set, so advancing over them is never refused |
| `EvidenceProgress.ReconcileDecidesIff` | src/o2mcp/runorg/execution_engine.py:579-698 | a reconciliation reaches a terminal decision if and only if its generation has records, every task has its verdict and, when all succeeded, the files could be observed |
| `EvidenceRuns.DerivationReached` | src/o2mcp/runorg/execution_authorization.py:20-73 | whatever the code derives from one store, the single reads of the protocol derive |
| `EvidenceRuns.ReconciliationReached` | src/o2mcp/runorg/execution_engine.py:577-698 | whatever a reconciliation decides on one store, the single reads of the protocol decide |
| `EvidenceLoops.ReadRecords` | src/o2mcp/runorg/execution_evidence.py:359-381 | the record loop computes the recursive reader, including the reset of a zero bound |
| `EvidenceLoops.RefusalStays` | src/o2mcp/runorg/execution_evidence.py:362-380 | a record refused at one attempt makes every longer read fail |
| `EvidenceLoops.NextUnrejected` | src/o2mcp/runorg/execution_evidence.py:160-192 | the rejection loop returns the attempt after the last of the chain and lists exactly the attempts passed over |
| `EvidenceLoops.ScanFollowups` | src/o2mcp/runorg/execution_evidence.py:322-341 | the downward scan returns the newest follow-up that owns its attempt |
| `EvidenceLoops.ReconcileTask` | src/o2mcp/runorg/execution_engine.py:729-809 | the evidence loop yields a success if there is one, otherwise the newest record's verdict |
| `EvidenceLoops.Classify` | src/o2mcp/runorg/execution_engine.py:618-634 | the classification loop fills four lists with the sorted tasks of each verdict |
| `EvidenceLoops.DecideStage` | src/o2mcp/runorg/execution_engine.py:636-698 | the imperative decision is the receipt the model reasons about |
| `EvidenceConditions.RetryAcceptedIffOrdered` | src/o2mcp/runorg/execution_evidence.py:411-431 | a retry's intent is accepted if and only if its receipt's order reads back unchanged; otherwise its record makes the stage unreadable |
| `EvidenceConditions.FollowupAcceptedIffTriggerIsBound` | src/o2mcp/runorg/execution_evidence.py:92-105 | a follow-up with authentic dependencies is accepted if and only if its trigger is the job in its slot and a retry |
| `EvidenceConditions.WrongOrderWedges` | src/o2mcp/runorg/execution_evidence.py:411-431 | on every plan with a stage of two retryable tasks whose orders disagree, a run reaches a store whose records the reader refuses |
| `EvidenceConditions.AcceptedIffTimely` | src/o2mcp/runorg/execution_engine.py:263-272 | in every state of every run, whatever was read when, the readers accept everything stored if and only if each follow-up published so far had its trigger in its slot |
| `EvidenceConditions.UntimelyFollowupHappens` | src/o2mcp/runorg/execution_followups.py:284-298 | a concrete run in which a newer upstream acceptance falls between the trigger and the dependency jobs, after which no reader accepts the follow-up and its stage cannot be reconciled |
| `StageGraph.OrderedIsAcyclic` | src/o2mcp/runorg/plans.py:181-203 | a graph with a dependencies-first order has no cycle |
| `StageGraph.Search.Visit` | src/o2mcp/runorg/plans.py:188-199 | one visit extends the order with dependencies first, or there is a cycle |
| `StageGraph.TopologicalOrder` | src/o2mcp/runorg/plans.py:181-203 | an order is returned if and only if the graph is acyclic, and it is a permutation with dependencies first |
| `AttemptBounds.BoundIsPathSum` | src/o2mcp/runorg/plans.py:205-240 | the bound is the budget plus, for every afterany edge (x, d), the number of paths to x times the retries of d |
| `AttemptBounds.PathsAreCounted` | src/o2mcp/runorg/plans.py:205-240 | the path number is the length of a repetition-free list of exactly all dependency paths |
| `AttemptBounds.AllAfterok` | src/o2mcp/runorg/plans.py:208-215 | without afterany edges every bound is the stage's own budget |
| `AttemptBounds.BoundIsMonotone` | src/o2mcp/runorg/plans.py:220-236 | a larger budget anywhere never lowers a bound |
| `AttemptBounds.BoundIgnoresOrder` | src/o2mcp/runorg/plans.py:220-236 | bounds do not depend on the order in which dependencies are listed |
| `AttemptBounds.Derivation.Derive` | src/o2mcp/runorg/plans.py:220-236 | the memoised derivation returns the recursive bound and stores only correct bounds |
| `AttemptBounds.DerivedBounds` | src/o2mcp/runorg/plans.py:205-240 | the derivation succeeds if and only if the graph is acyclic and gives every stage its bound |
| `PolicyStore.Store.WriteNextRevision` | src/o2mcp/policy.py:888-924 | a write bumps the revision by one, and reports whether the reread validates |
| `PolicyStore.Store.Disable` | src/o2mcp/policy.py:270-284 | disable rewrites any file, repairing an unreadable one, to a disabled state without a grant |
| `PolicyStore.Store.EnableReuse` | src/o2mcp/policy.py:286-312 | reuse is enabled only on the exact expected revision, and clears any grant |
| `PolicyStore.Store.AuthorizeLogin` | src/o2mcp/policy.py:314-391 | one grant is issued only on the expected revision, without another live grant and outside the cooldown |
| `PolicyStore.Store.ConsumeLoginGrant` | src/o2mcp/policy.py:537-576 | consumption removes the grant and writes the active attempt in the same rewrite |
| `PolicyStore.Store.RevokeUnusedStandingGrant` | src/o2mcp/policy.py:404-435 | only the client's own standing grant is revoked |
| `PolicyStore.Store.FinishLoginAttempt` | src/o2mcp/policy.py:496-535 | only an active attempt is finished, the mode and grant stay, and a success with a nonzero code is refused after the write |
| `PolicyRuns.InvNext` | src/o2mcp/policy.py:238-576 | every operation, launch context, spawn, crash and corruption keeps the run invariant |
| `PolicyRuns.NoLaunchAfterDisable` | src/o2mcp/policy.py:238-284 | between a completed disable and a remote spawn there is an enable |
| `PolicyRuns.OneSpawnPerGrant` | src/o2mcp/broker.py:991-1023 | each grant leads to at most one SSH process, and only after it was consumed |
| `PolicyRuns.ConsumedOnce` | src/o2mcp/connection.py:655-678 | no grant is consumed twice |
| `PolicyRuns.GlobalCooldown` | src/o2mcp/policy.py:341-391 | of two consecutive consumptions, the second one's grant was issued in between, and by then the first attempt had succeeded or 300 seconds had passed, across disable, stale marking and repair |
| `PolicyRuns.CoolNext` | src/o2mcp/policy.py:619-656 | repair and every other step keep the full cooldown of the last consumption |
| `PolicyRuns.NoAba` | src/o2mcp/policy.py:888-943 | no two distinct stored states of a run share a generation and revision |
| `PolicyRuns.StaleApprovalRefused` | src/o2mcp/policy.py:945-963 | an approval takes effect only on the very state it was given for |
| `PolicyRuns.TerminalAttemptsAreImmutable` | src/o2mcp/policy.py:509-524 | a terminal attempt is found unchanged or not at all |
| `PolicyRuns.ValidityPreserved` | src/o2mcp/policy.py:658-754 | every stored state is valid if and only if every recorded success carries return code zero |
| `PolicyRuns.TwoLoginsHappen` | src/o2mcp/policy.py:525-528 | a concrete run with two consumptions at one instant, which the success in between allows |
| `PolicyRuns.UnreadableSuccessHappens` | src/o2mcp/policy.py:496-535 | for every nonzero code, a concrete run that records a success with it and leaves a file no reader accepts |
| `Broker.InvNext` | src/o2mcp/broker.py:1284-1517 | every step of callers, daemon and helper keeps the channel and every connection consistent |
| `Broker.OutcomesAreSound` | src/o2mcp/broker.py:520-663 | a failure outside the outcome-unknown family means never forwarded, then or later; a returned result means forwarded and executed exactly once, and the result is the command's own |
| `Broker.ChannelIsSerialized` | src/o2mcp/broker.py:1519-1576 | nothing is forwarded twice, and between callers nothing is outstanding on the channel |
| `Broker.ResultHappens` | src/o2mcp/broker.py:1407-1517 | a concrete run in which a call is admitted, executed and answered |
| `Framing.HeaderRoundTrip` | src/o2mcp/broker_protocol.py:96-96 | the four header bytes give back the length |
| `Framing.ParseEncoded` | src/o2mcp/broker_protocol.py:79-155 | a written frame is read back as its body and leaves exactly the bytes behind it |
| `Framing.BannerIsSkipped` | src/o2mcp/broker_protocol.py:123-130 | behind text without a marker the first marker is the real one |
| `Framing.ParseAfterBanner` | src/o2mcp/broker_protocol.py:114-155 | behind a marker-free banner the first frame is read if and only if the banner fits the bound |
| `Framing.ReadExact` | src/o2mcp/broker_protocol.py:99-111 | under any chunking exactly the requested bytes are read, or the stream ends short |
| `Framing.ReadMagic` | src/o2mcp/broker_protocol.py:114-130 | resynchronization succeeds if and only if the first marker starts at offset at most 65536, and consumes exactly through it |
| `Framing.ReadFrame` | src/o2mcp/broker_protocol.py:133-155 | the chunked reader computes the frame that the bytes contain |
| `Framing.WriteFrame` | src/o2mcp/broker_protocol.py:164-173 | partial writes put the whole encoded frame on the stream, or nothing if it is refused |
| `Framing.WriteAll` | src/o2mcp/broker_protocol.py:164-173 | a sequence of bodies is written as the sequence of its frames |
| `Framing.ReadAll` | src/o2mcp/broker_protocol.py:133-155 | any written sequence of bodies is read back as the same sequence |
| `BoundedOutput.DrainBounded` | src/o2mcp/broker_protocol.py:268-289 | the first megabyte is kept, and truncation is reported exactly when there was more |
| `BoundedOutput.SixForOne` | src/o2mcp/broker_protocol.py:46-49 | the escaped text of the replacement-decoded output has at most six bytes for each byte |
| `BoundedOutput.SixIsAttained` | src/o2mcp/broker_protocol.py:46-49 | six is reached by every stream of NUL bytes |
| `BoundedOutput.EscapeReads` | src/o2mcp/broker_protocol.py:79-96 | the JSON escapes read back as the text they were made from |
| `BoundedOutput.Utf8Reads` | src/o2mcp/broker_protocol.py:376-430 | each encoded character decodes to itself and consumes exactly its own bytes |
| `BoundedOutput.ResultFits` | src/o2mcp/broker_protocol.py:376-430 | the JSON body of every result of a started command can be framed within 16 MiB |
| `BoundedOutput.CaptureResult` | src/o2mcp/broker_protocol.py:376-430 | the captured streams are bounded prefixes and the result frame fits |
| `Shlex.ReadJoined` | src/o2mcp/connection.py:1722-1737 | splitting undoes joining for every list of tokens |
| `Shlex.PosixIsLawful` | src/o2mcp/connection.py:1712-1737 | POSIX quoting satisfies all that hardening relies on, whatever the option keywords |
| `SshOptions.SanitizeMeaning` | src/o2mcp/connection.py:1602-1710 | sanitizing removes exactly the socket and configuration overrides that OpenSSH would read, leaves none that is refused, and is idempotent |
| `SshOptions.SanitizeAcceptsIff` | src/o2mcp/connection.py:1656-1700 | a token list is accepted if and only if no option lacks its argument and none is refused |
| `SshOptions.SanitizeTokens` | src/o2mcp/connection.py:1602-1710 | the token loop computes the sanitized list |
| `SshOptions.DestinationKept` | src/o2mcp/connection.py:1287-1320 | sanitizing leaves the destination of the separate parser alone |
| `SshOptions.GuardMeaning` | src/o2mcp/connection.py:1712-1737 | a guarded transport starts with the guarded prefix, overrides none of it later, and guarding it again changes nothing |
| `SshOptions.DirectSsh` | src/o2mcp/connection.py:1739-1758 | a hardened SSH command keeps its destination, overrides nothing and is a fixed point |
| `RsyncArgv.HardenMeaning` | src/o2mcp/connection.py:1771-1844 | every item of a rewritten command line reads back as the item it was, and all its transports are guarded |
| `RsyncArgv.HardenedIsGuarded` | src/o2mcp/connection.py:1739-1847 | a hardened rsync command has at least one transport, all guarded, and is a fixed point |
| `RsyncArgv.HardenAcceptsIff` | src/o2mcp/connection.py:1771-1844 | a command line is accepted if and only if no option lacks its argument and every transport can be guarded |
| `RsyncArgv.OnlyTransportsChange` | src/o2mcp/connection.py:1778-1842 | option data, operands and everything behind the terminator stay as they were |
| `RsyncArgv.RsyncOperandsKeptIff` | src/o2mcp/connection.py:1322-1363 | hardening leaves the independently parsed operands unchanged if and only if no bare `e=` swallows an element that hardening changes |
| `RsyncArgv.BareEqualsChangesOperands` | src/o2mcp/connection.py:1812-1831 | with POSIX quoting, `-ae= ssh` before any operands is accepted and its `ssh` rewritten, although the other parser counts it as a path |
| `RsyncArgv.HardeningSettles` | src/o2mcp/connection.py:1739-1847 | a hardened command runs a pinned executable, and hardening is idempotent |
| `RsyncArgv.RsyncOperands` | src/o2mcp/connection.py:1322-1363 | the operand loop computes the operand list |
| `RsyncArgv.HardenLoop` | src/o2mcp/connection.py:1766-1847 | the in-place rewriting loop computes the hardened command line |
| `Billing.BandIsPrice` | src/o2mcp/billing.py:637-663 | a memory size has the request's price if and only if it lies in the half-open band |
| `Billing.LargestAtSamePrice` | src/o2mcp/billing.py:618-634 | the margin loop computes the first candidate that is not behind the request |
| `Billing.LargestSameIff` | src/o2mcp/billing.py:618-634 | the largest same-price size is not behind the request, and has its price if and only if the band reaches above zero |
| `Billing.NegativeSizeMisprices` | src/o2mcp/billing.py:1097-1122 | a resolved request with a negative CPU count is offered a size of another price |
| `Billing.OfferedIff` | src/o2mcp/billing.py:665-687 | for every request, the largest size keeps its three promises if and only if the request fits a cap inside the band, or else the band reaches above zero |
| `Billing.LargestIsFree` | src/o2mcp/billing.py:665-687 | for a request and partition with nothing negative, the reported largest size is at least the resolved request, within the per-job cap and of exactly the same price |
| `Billing.NextCheaperIsCheaper` | src/o2mcp/billing.py:704-741 | a cheaper size is offered if and only if one fits, reprices strictly lower, and is reported as exactly one unit less |
| `Billing.CpuFloorHoldsMemory` | src/o2mcp/billing.py:927-969 | raised CPUs hold the memory asked for, and no task gets a CPU more than it needs |
| `Billing.CpuFloorSettles` | src/o2mcp/billing.py:963-969 | the CPU adjustment is idempotent |

## Left out

- A write whose response was lost has either taken effect by the time the call goes on, or never does; a write that lands later is not modelled.
- `_ensure_reconciler_followups` may choose any free attempt above an accepted one, for any retry as its trigger; choosing between replay, a covering generation and a new attempt, and the mid-submission check, only restrict when it publishes.
- The afterok gates, `latest_reconciliation_receipt` and the ordering jobs of an intent: they only refuse steps that the model allows.
- The file reads inside one strict read (the records of one stage, one receipt, one follow-up with the owner of its attempt, the evidence of one task) happen at one moment.
- The registry update of a reconciliation and its own `_sync_registry` call (`src/o2mcp/runorg/execution_engine.py`, lines 701-709): it writes no evidence, and its status is read by no reader modelled here.
- Task array indices, receipt observations and their digests, scheduler state parsing: evidence carries a normalized state, an exit code and whether the receipts match.
- Policy events, `updated_at` and `updated_by`, file modes, directory checks and the previews that write nothing.
- UUIDs, SHA-256, JSON parsing and the keyword syntax of `ssh -o` are abstract. JSON numbers of a result are given as text.
- `_write_remote_frame_with_deadline` and the response watchdog: a deadline or transport failure is one step that stops the daemon.
- Stop and ping requests of the broker, command deadlines and their clamping.
- Float rounding in billing, `parse_weight_table`, price receipts and the alternatives list. Model names are taken as already lower-cased.
- Configuration, server registration, keepalive, file transfer and workspace tools, whose members would only be easy ones.
- Billing.LargestIsFree: assumes a request and partition with nothing negative, because NegativeSizeMisprices shows that the price property fails below zero; OfferedIff says exactly when it holds.
