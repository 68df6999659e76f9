# Verified models of Uumi's concurrency and recovery protocols

Uumi rotates credentials. Its workers share Firestore documents through compare-and-set
transactions, leases, operation tokens and revisions, call cloud and provider APIs that may fail or
lose their answers, and crash at any point. This project models those protocols in Dafny and proves
what they keep, over every interleaving.

How the models are built: a document's transitions are pure functions (`EgressState`,
`BrokerAttempt`, `BrowserSession`); a protocol is a `Step` datatype with `Enabled` and `Apply`, where
one transaction, one remote call or one clock tick is one step and any number of callers may stall or
crash between steps; a theorem is about `Run` (or `Execute`) over every `Legal` sequence of steps. The
code that updates stored state is also written as classes whose methods are proved against those
transitions (`EgressManager`, `AttemptStore`, `BrowserService`, `Setup`, `NonceCache`), or as methods
with loops (`Rollout`, `AuditChain`, `Probes`, `Revocation`). Where the obvious claim is false of the
code, a lemma or method gives the run that shows it and another gives the exact condition.

| files | part of the system |
|---|---|
| EgressState, EgressProtocol, EgressLate, EgressManager | the shared browser egress: four cloud resources kept up while leases are live |
| BrokerAttempt, BrokerProtocol, BrokerEffects, BrokerFailure | one tool request executed by competing broker workers |
| Rollout, RolloutProtocol | the rollout schedule, re-executed over the broker |
| BrowserSession, BrowserService, SessionProtocol | the browser session machine, its action ledger and secure capture |
| Setup | completing a browser connection's setup despite ambiguous commits |
| Waiters | paused runs waiting for a connection, a list two services change |
| Base64Url, Capability, NonceCache | capability tokens: codec, binding, one-time use |
| AuditChain | the hash-chained audit log |
| Probes, Revocation, CompiledControls | from probe observations to "old credential rejected" |

`dafny verify dfyconfig.toml` checks everything.

Claims that look true of the code and that the proofs refute or qualify:

- The step budget is not checked before an action is authorised, so one action too many stores a
  session that no longer validates and refuses every later call (`BrowserSession.BudgetOverrun`,
  `SessionProtocol.OverrunReached`).
- A run that pauses again just after it was resumed can be dropped from the waiting list
  (`Waiters.RememberedSurvives`, `Waiters.LostWakeup`).
- A capability can be consumed twice in the second in which it expires
  (`NonceCache.ReplayedExactly`).
- A provisioner that outlives its own timeout can leave a route to a deleted gateway
  (`EgressProtocol.EnsureTidyExactly`, `EgressProtocol.StaleRoute`).
- A deletion that outlives its caller's wait can remove a resource from under a later READY document
  (`EgressLate.LandsExactly`, `EgressLate.GatewayLost`).
- A deleter that crashes leaves the egress document DELETING for good
  (`EgressProtocol.SettlesExactly`, `EgressProtocol.DeleterCrashes`).
- An attempt that ends FAILED may have its effect in place (`BrokerFailure.FailedEffectExactly`).
- A setup whose commit went unheard and could not be read back disables the version it committed
  (`Setup.DanglingReference`).
- A failed setup whose cleanup succeeded can still leave a new enabled version, stored by a worker nobody
  waits for any more (`Setup.Service.CompleteAndSettle`, `Setup.LateVersion`).

## Model

| member | source | states |
|---|---|---|
| EgressState.ChangeLeases | server/browser/egress.py:208-344 | For each of the six document changes: the new lease list is strictly ordered by id (so free of duplicates), holds nothing but earlier leases and an acquired one, and keeps every unexpired lease the change does not name |
| EgressState.ChangeKeepsWellFormed | server/browser/egress.py:45-59 | Every change keeps the stored-document validator, which `model_copy` does not re-check, and advances the revision by exactly one, as the store demands |
| EgressState.SupersededCompletion | server/browser/egress.py:321-383 | A completion or failure reported under a token the document no longer carries changes the revision and nothing else |
| EgressState.LiveLeaseKeepsReady | server/browser/egress.py:256-319 | A READY document with an unexpired lease stays READY with the same gateway address under every change that does not release that lease or fail under the current token |
| EgressProtocol.StepInv | server/browser/egress.py:127-579 | The invariant tying every caller's phase to the document and to the four resources is kept by every step of every caller: transactions, resource calls that succeed, fail or lose their answer, clock ticks, crashes |
| EgressProtocol.ReadyMeansResources | server/browser/egress.py:321-344 | In every interleaving of any number of acquire, release and reconcile callers: READY means policy, rule, gateway and route all exist and the recorded address is the existing gateway's |
| EgressProtocol.DeleterIsAlone | server/browser/egress.py:200-206 | At most one caller is ever inside `_delete_resources`, and for as long the document is DELETING with exactly its token |
| EgressProtocol.LeaseGuarantee | server/browser/egress.py:127-168 | Once `acquire` has returned, and until its lease expires, every reachable document is READY and lists the lease and all resources exist, provided nobody else releases or acquires the same id |
| EgressProtocol.EnsureTidyExactly | server/browser/egress.py:418-544 | A creating call keeps the resources tidy (a prefix of policy, rule, gateway, route, the route pointing at the present gateway, nothing under ABSENT, nothing back that an eraser has removed) if and only if it is refused, finds its resource, or creates it in its place for a document that is not ABSENT with no eraser past it |
| EgressProtocol.OwnerHarmless | server/browser/egress.py:188-198 | A provisioner that still holds its token creates harmlessly; only a superseded one can do harm |
| EgressProtocol.ResourcesFormPrefix | server/browser/egress.py:418-579 | Through every partial failure of a create or delete, a run keeps the resources tidy at every point if and only if each of its creating calls is harmless in that sense |
| EgressProtocol.OwnersKeepTidy | server/browser/egress.py:418-579 | So in runs where a superseded provisioner creates nothing more, the resources are tidy at every point, through every partial failure |
| EgressProtocol.StaleRoute | server/browser/egress.py:418-544 | Harm does happen: a concrete run in which a provisioner stalls past the timeout, is cleaned up after and then creates its route, so a later READY document has a route to a gateway that is gone |
| EgressProtocol.DeletingForGood | server/browser/egress.py:285-319 | DELETING has no staleness path: with no caller deleting or failing under its token, the document stays DELETING under it in every continuation |
| EgressProtocol.SettlesExactly | server/browser/egress.py:285-383 | A reachable DELETING document can still become ABSENT or FAILED if and only if some caller is deleting under its token or about to report its failure |
| EgressProtocol.DeleterCrashes | server/browser/egress.py:297-309 | A concrete run reaches a DELETING document that never settles: a reconciler takes an operation over, to delete, and crashes |
| EgressLate.LandsExactly | server/browser/egress.py:515-592 | An operation that takes effect after its caller gave up waiting keeps the protocol's invariant if and only if it creates, or deletes a resource that is gone or that neither a READY document nor a provisioner past it relies on |
| EgressLate.InvariantExactly | server/browser/egress.py:515-592 | With such late operations the invariant holds all along a run if and only if every landing is safe in that sense |
| EgressLate.LateReadyMeansResources | server/browser/egress.py:515-592 | In runs whose late operations land safely, READY still means all four resources and the gateway's address |
| EgressLate.GatewayLost | server/browser/egress.py:581-591 | A concrete run in which a deletion outlives its wait and removes the gateway of a later READY document |
| EgressManager.Manager.Update | server/browser/egress.py:81-98 | One transaction replaces the document by exactly the change's result; the revision check never refuses one of the manager's own changes |
| EgressManager.Manager.EnsureResources | server/browser/egress.py:418-513 | Succeeds exactly if no resource call fails; then all four exist and the answer is the gateway's address; nothing is removed and a prefix stays a prefix |
| EgressManager.Manager.DeleteResources | server/browser/egress.py:546-579 | Succeeds exactly if no resource call fails; then nothing is left; a prefix stays a prefix after a partial failure |
| EgressManager.Manager.Delete | server/browser/egress.py:200-206 | From DELETING under its token: without a failed call ends ABSENT, tokenless and empty with every unexpired lease kept; with one, FAILED with the leases kept |
| EgressManager.Manager.Provision | server/browser/egress.py:188-198 | From PROVISIONING under its token: without a failed call ends READY with a live lease over all resources, or ABSENT with none when every lease ran out meanwhile; with one, FAILED; no unexpired lease is lost |
| EgressManager.Manager.AcquireLease | server/browser/egress.py:127-168 | A normal return means READY over all four resources, with the lease listed unless it has already expired; anything else means that the wait was over or a resource call failed |
| EgressManager.Manager.ReleaseLease | server/browser/egress.py:170-176 | Releasing the last live lease of a READY or FAILED document ends ABSENT with no lease and no resource when no call fails; any other release touches no resource |
| EgressManager.Manager.ReconcileOnce | server/browser/egress.py:178-186 | Convergence: from READY, FAILED or stale PROVISIONING with every lease expired, one uninterrupted reconcile without a failed call ends ABSENT with no lease, token or resource; with one it is left where the next reconcile converges |
| BrokerAttempt.EachOnce | server/broker/storage.py:41-163 | Whatever transactions callers send, in whatever order: the attempt is begun once, each lease epoch is reclaimed at most once and in order, and once a finish is accepted nothing but a repeat of the same result is and the document no longer changes |
| BrokerAttempt.AttemptStore.ServeAll | server/broker/storage.py:41-163 | The same of the store's own transactions, run in any sequence on a new store |
| BrokerProtocol.Agreement | server/broker/service.py:174-280 | Over all interleavings on one request id, lease overruns and lost answers included, any two normal returns of `execute` carry the same result, which is the stored terminal one, and status and result never change again |
| BrokerProtocol.EpochsOnlyGrow | server/broker/storage.py:73-102 | Over any run the stored lease end never moves back, and binding and baseline never change |
| BrokerProtocol.OneOwnerPerEpoch | server/broker/service.py:170-211 | In every interleaving each lease epoch has one owner: no two workers act under the same lease, run out or not |
| BrokerProtocol.OneUnexpiredLease | server/broker/service.py:170-211 | At any instant at most one worker acts under an unexpired lease, the one the stored attempt names |
| BrokerEffects.StepInv | server/broker/service.py:158-334 | The effect and secret-version invariant is kept by every step of crash-stop workers over exactly reconciling connectors |
| BrokerEffects.AtMostOneEffect | server/broker/service.py:158-280 | In those runs a request has at most one net remote effect over any number of crashes, lost answers and reclaims, and exactly one if its attempt is SUCCEEDED |
| BrokerEffects.AtMostOneSecret | server/broker/service.py:367-448 | For a credential creation at most one enabled version outside the recorded baseline ever exists, so the sweep never meets several candidates; SUCCEEDED means exactly one, the one the result names |
| BrokerFailure.FailedEffectExactly | server/broker/service.py:233-280 | In every crash-stop run over exactly reconciling connectors whose attempt ends FAILED, the effect is in place unless the remote call raised before its effect or the created credential's revocation took place: exactly then there is none. Failed evidence, a lost checkpoint answer and a missing secret leave it |
| BrokerEffects.FailedWithEffect | server/broker/service.py:234-254 | It happens: a concrete such run whose effect is in place and whose attempt ends FAILED, because evidence is written after the call |
| Rollout.StepIdInjective | server/coordinator/service.py:924-924 | Two shifts get the same step id only if they are of the same binding and percentage, although binding ids may contain underscores and digits |
| Rollout.ScheduleIdsDistinct | server/coordinator/service.py:919-938 | No two shifts of a schedule share a request id |
| Rollout.ShiftAll | server/coordinator/service.py:920-940 | The inner loop issues one percentage, deployment by deployment, up to and including the first refusal or up to a crash |
| Rollout.Execute | server/coordinator/service.py:904-972 | Against any outcomes and crash, the calls issued are exactly the schedule (each percent, each deployment, then a report) up to the first that is not accepted; promotion follows exactly when there is a schedule and all of it was accepted |
| RolloutProtocol.AnswerBacked | server/coordinator/service.py:1308-1343 | A coordinator goes past a shift only if the stored attempt of that shift is SUCCEEDED |
| RolloutProtocol.ShiftsInOrderOnce | server/coordinator/service.py:904-972 | Any number of coordinators re-executing the stage over the broker protocol: no shift takes effect twice; one takes effect only when every earlier shift is in effect once and SUCCEEDED; a promoted rollout has every shift in effect exactly once |
| BrowserSession.OperationInv | server/browser/service.py:73-338 | Every accepted operation keeps: both barriers armed exactly outside RUNNING; the ledger lists each authorised action once; the step count is the number of actions since the last (re)provisioning and their fences never decrease in that span |
| BrowserSession.BudgetOverrun | server/browser/service.py:219-249 | An accepted operation leaves a document its own validator refuses if and only if it authorises an action when the step budget is already used up |
| BrowserSession.OverrunIsForGood | server/browser/service.py:340-350 | Such a document refuses every operation and creation from then on, terminate and reprovision included |
| SessionProtocol.OverrunReached | server/browser/service.py:219-249 | It is reached: a run in which a session with a budget of one is created, attached and started, two ordinary actions on it are authorised, and the RUNNING session no longer validates |
| SessionProtocol.RunsAreSequential | server/browser/storage.py:24-196 | Linearisation: every interleaving of concurrent callers that read, stall, crash and commit leaves the documents as if the operations had been performed whole, in the order of their commits |
| SessionProtocol.LeavingCaptureAlways | server/browser/service.py:154-338 | In every run of concurrent callers the next step takes the session out of CAPTURING only by storing a new capture record, or leaves it PAUSED or TERMINATED with both barriers armed |
| SessionProtocol.NothingTwice | server/browser/storage.py:50-165 | Over any history no two accepted writes of the session share a revision, no action id is authorised twice and no capture id is stored twice |
| SessionProtocol.ReachableStores | server/browser/service.py:73-338 | The barrier, ledger and step-count invariant holds in every store reachable by concurrent callers |
| SessionProtocol.RevisionCountsOperations | server/browser/storage.py:50-76 | The revision counts exactly the operations committed since the session was created |
| SessionProtocol.CompletedEntriesStay | server/browser/storage.py:167-196 | A completed ledger entry is unchanged at the end of every run |
| BrowserService.Service.Perform | server/browser/service.py:73-338 | Each of the twelve operations takes place as a whole, in the session, ledger and capture documents, or is refused and changes nothing |
| BrowserService.Service.FinishAction | server/browser/storage.py:167-196 | Completes an authorised entry once; repeats harmlessly; refuses a different completion |
| BrowserService.Service.Create | server/browser/service.py:73-78 | Stores a PROVISIONING session with both barriers armed, and answers a repeated identical creation |
| BrowserService.Service.Execute | server/browser/worker.py:81-113 | Among other callers doing anything between its calls: an action counts as performed only with a new ledger entry that is SUCCEEDED; another normal return means PAUSED with both barriers armed; no entry completed before is touched |
| BrowserService.Service.ExecuteProtectedCapture | server/browser/worker.py:115-158 | Among other callers doing anything between its calls: all that happens is a sequence of whole operations, each leaving CAPTURING properly; a normal return means this call's record is stored and the session resumed, or PAUSED with both barriers armed; after an exception the session is as this worker last wrote it, CAPTURING with both barriers armed or resumed with the record, or somebody has written it since |
| Setup.Service.CompleteSetup | server/core/storage/inventory.py:294-338 | Both documents change together exactly if both are the ones read, whether or not the answer arrives |
| Setup.Service.Try | server/browser/setup.py:326-363 | When the attempt stores a version, when it commits, what it commits and when it raises, for every failure and every interference between its calls |
| Setup.Service.CommittedSetup | server/browser/setup.py:717-734 | Reports a commit exactly if both documents are read back as they were to be committed |
| Setup.Service.ReconcileStore | server/browser/setup.py:662-699 | Disables the version the call has had stored, named or not; fails exactly if that cannot be seen to happen; several candidates never arise |
| Setup.Service.MarkReauthentication | server/browser/setup.py:642-660 | Marks the connection for reauthentication unless its document is changed during each of three attempts |
| Setup.Service.Handle | server/browser/setup.py:364-384 | The handler of a raised attempt returns to the normal path exactly if the transaction took effect and can be read back; otherwise it disables what was stored and terminates the setup |
| Setup.Service.CompleteCall | server/browser/setup.py:279-392 | A normal return means COMPLETE with a READY connection naming the enabled new version, committed together; a call that commits nothing leaves no new enabled version unless the cleanup failed; a committed version ends up disabled if and only if the answer was lost, the read-back did not show the commit and the disabling took effect |
| Setup.Service.CompleteAndSettle | server/browser/setup.py:587-594 | Once the worker has done what it still does after its request timed out: a call that commits nothing leaves a new enabled version if and only if the worker stored late or the cleanup could not find or disable what was stored in time; after a cleanup that succeeded, if and only if it stored late |
| Setup.LateVersion | server/browser/setup.py:587-594 | It happens: a failed setup whose cleanup found nothing to do ends with a new enabled version |
| Setup.DanglingReference | server/browser/setup.py:364-384 | That last case happens: a lost answer and a failed read-back leave a READY connection naming a disabled version |
| Waiters.StepInv | server/coordinator/service.py:2226-2267 | Every step of concurrent remember and resume calls keeps the list free of duplicates, accounts for every identifier, and keeps every caller's copy in line with its revision |
| Waiters.NothingIsLost | server/coordinator/service.py:2226-2267 | Over all interleavings: inserted identifiers are exactly the removed ones plus the listed ones, the list has no duplicates, and whatever a caller removed it had resumed |
| Waiters.RemovalFollowsResume | server/browser/setup.py:552-577 | An identifier leaves the list only by a write of a caller that resumed it successfully after reading the very list it is taken from |
| Waiters.RememberedSurvives | server/coordinator/service.py:2250-2251 | A remember call completes, others take any steps, and a resumer that had done its resuming before writes: its write takes the run off the list if and only if the call wrote nothing because the run was listed, the resumer had read that same list and resumed the run, and nobody has written since |
| Waiters.RemovedOrLost | server/browser/setup.py:552-577 | However a run is taken off the list after a remember call for it has completed: the remover has resumed it since, or that one case holds |
| Waiters.LostWakeup | server/coordinator/service.py:2250-2251 | It happens: a run that pauses again right after being resumed finds itself listed, writes nothing, and is then removed with nobody left to resume it |
| Waiters.ResumeAll | server/browser/setup.py:822-852 | Resumes exactly the runs that can be read, are paused and accept the command, in order; one failure does not stop the others |
| Base64Url.RoundTrip | server/broker/capability.py:124-136 | Decoding undoes encoding for all byte strings |
| Base64Url.EncodeAlphabet | server/broker/capability.py:135-136 | The text uses only URL-safe letters, no pad, no token separator, and has ceil(4n/3) characters |
| Base64Url.DecodableLengths | server/broker/capability.py:124-128 | A text over the alphabet decodes if and only if its length is not one more than a multiple of four |
| Capability.VerifyMint | server/broker/capability.py:49-106 | A minted token verifies to exactly its claims before they expire, and is refused as expired from then on |
| Capability.VerifiedIsMinted | server/broker/capability.py:73-106 | A token that is not forged (if its signature checks, it is on the message of minted claims) and that verifies carries claims that were minted, have not expired and are what it presents |
| Capability.VerifiesExactly | server/broker/capability.py:49-106 | Under a correct scheme a token minted from minted claims is not forged and verifies until it expires; and a token that is not forged verifies to given claims if and only if they were minted, have not expired and are what it presents |
| Capability.AutomaticExactly | server/broker/service.py:336-350 | A capability minted without approval authorises a request if and only if it has that binding and the five minutes have not passed |
| Capability.ApprovedExactly | server/broker/service.py:353-365 | With an approval: also exactly while the approval is granted and consumed for this run and tool and the action is still the one minted for and approved |
| Capability.AuthorizedIsMinted | server/broker/service.py:336-365 | Every mutation authorised by a token that is not forged was minted for this very binding and is automatic or an approved, unchanged action |
| NonceCache.RefinesHistory | server/browser/workerapp.py:1199-1206 | The pruned cache answers as full history does: a nonce is refused exactly while some token accepted with it has not expired |
| NonceCache.ReplayedExactly | server/browser/workerapp.py:1139-1206 | A token accepted before is accepted again if and only if it expires between the two clock readings of the later call |
| NonceCache.NeverTwice | server/browser/workerapp.py:1139-1206 | With one clock reading per call no capability is accepted twice, over any run |
| NonceCache.ReplayHappens | server/browser/workerapp.py:1139-1206 | With two readings it can be: a concrete run of two accepted calls |
| NonceCache.Worker.ConsumeNonce | server/browser/workerapp.py:1199-1206 | Refuses a nonce exactly while some token accepted with it has not expired, remembers exactly the accepted token, and forgets only what has expired |
| NonceCache.Worker.Authorise | server/browser/workerapp.py:1139-1196 | Performs exactly one step of the cache model and keeps its invariant; a token that does not verify or bind consumes nothing |
| AuditChain.VerifyAudit | server/coordinator/service.py:2014-2044 | The loop accepts exactly the non-empty logs in which every event carries its position, its predecessor's hash and its own hash |
| AuditChain.SharedHash | server/core/audit/chain.py:8-39 | Two accepted logs that share one hash, at whatever positions, have it at the same position and agree on every hashed field up to there |
| AuditChain.LastHashCommits | server/coordinator/service.py:2014-2044 | Two accepted logs with the same last hash agree on length and on every hashed field of every event |
| AuditChain.HistoryIsFixed | server/coordinator/service.py:2014-2044 | A later accepted log that still contains an earlier log's last hash has that whole log as its beginning |
| AuditChain.AppendKeeps | server/core/storage/audit.py:36-141 | An append keeps the chain and all earlier events, adds an event exactly if its id is new, and answers with a stored event that says what was asked, or conflicts |
| AuditChain.AppendTwice | server/core/storage/audit.py:41-75 | Repeating an append changes nothing and answers with the same event |
| AuditChain.AppendedIsChained | server/core/storage/audit.py:36-141 | Whatever is appended, the log that results is chained |
| AuditChain.ChainedIsAppended | server/core/storage/audit.py:76-125 | A log with distinct ids is chained if and only if appending its own events one by one writes it |
| Probes.Resolve | server/coordinator/service.py:1602-1677 | Answers the pinned probes bound in order exactly if each can be bound and their kinds and polarities cover what the stage asks; otherwise the first binding error |
| Probes.TelemetryProbe | server/verifier/probes.py:407-430 | The counting loop accepts exactly the entries within the thresholds, and none at all for a negative probe |
| Probes.Verify | server/verifier/service.py:35-87 | One result per definition in order; passed exactly if every probe passed; the checks are exactly those of the results |
| Probes.CheckSource | server/verifier/probes.py:50-148 | Every check in a passed report comes from a probe of it that reports the check and whose observation satisfied it |
| Revocation.Revoke | server/coordinator/service.py:1064-1165 | Returns exactly if a proof exists: both reports resolved, reported and passed, evidence complete, old secret disabled |
| Revocation.OldCredentialRejected | server/coordinator/service.py:1064-1165 | If `_revoke` returns for an API-managed credential: the rejection report is all passed, contains a provider probe that saw the credential gone and a credential probe that was refused, and no credential probe in it was accepted |
| Revocation.SomeRejected | server/coordinator/service.py:2133-2149 | The witnesses, and a credential probe of the replacement report that was accepted |
| Revocation.AllRejected | server/coordinator/service.py:1700-1714 | Every provider probe of the rejection report saw the credential gone and every credential probe was refused, because binding fixes the polarity |
| Revocation.Examined | server/coordinator/service.py:1715-1750 | A credential probe authenticates with the secret of the generation it is bound to, and a provider probe with a dynamic target asks about that generation |
| Revocation.ExaminesCurrentExactly | server/coordinator/service.py:1708-1750 | Every provider and credential probe of the rejection report looks at the current generation if and only if each is bound CURRENT, or TARGET where target and current are one |
| CompiledControls.CompileGood | server/core/inventory/controls.py:101-248 | What `compile_controls` pins: VERIFY probes positive and bound to the target, REVOKE probes bound to the current generation and negative exactly for provider and credential, of all kinds an API-managed credential needs |
| CompiledControls.BindsToOld | server/core/inventory/controls.py:162-200 | Compiled controls bind every revocation probe to the current generation, and the provider ones to its provider id, always |
| CompiledControls.GeneratedOldRejected | server/coordinator/service.py:1064-1165 | Under compiled controls, when the stage returns it is the old generation's provider id that is gone and its secret that was refused, by every such probe |
| CompiledControls.GeneratedRevokesExactly | server/coordinator/service.py:1064-1165 | Under compiled controls of an API-managed credential, both generations on record: the stage returns if and only if the provider steps ran, every VERIFY and every REVOKE probe passed, every deployment can be rolled back, and the old secret version was disabled |
| CompiledControls.GeneratedRevokes | server/coordinator/service.py:1064-1165 | It does return for every such credential, when every probe sees what it hopes for |
| Revocation.ChecksPassExactly | server/coordinator/service.py:1903-1971 | `_verification_checks` accepts a passed VERIFY report of its own pinned probes if and only if no secret probe among them is negative, required telemetry has a positive probe, and every deployment, at least one, has a rollback revision |
| Revocation.RevokesExactly | server/coordinator/service.py:1064-1165 | For an API-managed credential, given its two reports: the stage returns if and only if the steps ran, both reports passed, the pinned probes are of the kinds asked for, rollback is pinned, and the old secret is on record and was disabled |

## Left out

Not modelled, everywhere:

- Transport: Firestore, Compute Engine, Secret Manager, HTTP and websockets are atomic steps that
  succeed, fail, or take effect with the answer lost. Operations that take effect only after their
  caller has seen them fail are modelled for the egress resources (`EgressLate`) and for the version a
  setup stores (`Setup`), and nowhere else.
- Cryptography and canonical JSON: signatures, hashes and JSON are parameters with the laws stated
  (a signature that was made checks, a presented token is not forged, no collisions, JSON is read back); only base64url and the token framing are concrete.
- Field formats and lengths, timestamps no decision reads, tenant paths, notification and history text.
- Cancellation (`asyncio.CancelledError`) as distinct from an exception or a crash.

Weaker than the code, or narrower than it, on purpose:

- BrokerEffects.AtMostOneEffect: assumes workers stop at their lease end and connectors reconcile
  exactly; past the lease only agreement (`BrokerProtocol.Agreement`) is proved. The HTTP connector's
  answer for tools it cannot reconcile is outside that assumption.
- BrokerProtocol.Agreement: the read-only tools, request validation and capability checks that come
  before the attempt is read are not steps of the protocol; capability checks are in `Capability`.
- RolloutProtocol.ShiftsInOrderOnce: the verification between percentages is one step that passes or
  does not; what its report proves is in `Probes` and `Revocation`.
- Setup.Service.CompleteCall: assumes no other writer of the secret container, and that other callers
  do not know the new version's number; waiting runs and deleting the setup machine appear only as
  calls that may raise.
- Capability.VerifyMint: the names of claims in the JSON object are distinct keys, not texts; a number
  that JSON would read as a float is not distinguished.
- Waiters.NothingIsLost: a crash between two resume commands of one call is a crash before any.
- AuditChain.AppendKeeps: the outbox written beside each event, and its own consistency check, are
  not part of the log.
- CompiledControls.CompileGood: finding the connections, the allowed tools and the recovery branches of
  the controls are not modelled, and of the OBSERVE probes only their numbering.
- Revocation.Revoke: the incident record and the generation's own state change are not modelled; the
  provider steps and the disabling of the old secret are single outcomes.

Parts of the repository left out because they would add easy members or have no semantics to check:

- `setup.begin`, `abort`, `get` and reaping: single compare-and-set changes.
- `_canonical_secret_reference` and other string formats; a version is its number.
- `validate_request` (stage, role and resource tables) and domain matching.
- The secret-access envelope of the browser worker, page scripts, screenshots, model calls.
- Ingestion, fleet activation, IAM bindings, playbook substitution, the client, settings and wiring.
- Liveness: that a crashed deleter's document or an expired session is ever cleaned up.
