# Waycloak, verified

Waycloak keeps selected Kubernetes workloads behind a VPN gateway and must fail closed.
This project models the protocols that this rests on and proves what they keep over every
run: crashes, lost writes, restarts, failing backends and, on a node, interleaved processes.

External calls (API server, nftables, files, providers, adapters, clocks) are inputs of the
step that makes them, so a statement over all inputs covers every failure. Code that works
by changing things is a class whose methods are proved equal to a function of the old state;
the lemmas are about that function and about every run of it. Strings that the programs
only compare are numbers (`Common.Uid`).

| files | component |
|---|---|
| `GatewayRuntime`, `GatewayRuntimeRuns` | the gateway runtime's lease states and kernel rule table |
| `LeaseController`, `HandoffSafety` | the controller's persisted handoff, and the whole handoff with crashes and restarts |
| `NodeWorld`, `NodeService`, `NodeReconcile`, `CniPlugin`, `NodeSafety` | attachments on a node: CNI calls and the node agent, interleaved |
| `CertificateRotation` | the nine-phase resumable rotation |
| `CniInstaller` | the installer's file writes and the runtime's config selection |
| `AdapterHandler` | the application adapter's durable acknowledgements |
| `GatewayPackets`, `WorkloadPolicy` | what the compiled packet rules mean |
| `AddressAllocation`, `AddressOwnership`, `ProviderPorts`, `ProviderPortRuns`, `Modular` | the two allocators |
| `ReplayWindow`, `MacFraming` | the local protocol's replay table and MAC input |

## How the node is modelled

Every external call of a CNI call or of the agent is preceded by a turn of the others
(`NodeWorld.Node.Wait`), who may do anything `Rely` allows. Whatever a process does to the
node is one of six effects (`NodeWorld.Effect`), each with its guard, and
`EffectKeepsGuarantee` proves of each that it keeps to `Guarantee`. A run in `NodeSafety` is
any sequence of such effects and of changes made by the cluster; `OthersMeetRely` shows that
any number of steps of the others is interference the model allows for. The agent runs one
pass at a time (`cmd/waycloak-node-agent/main_linux.go:199-237`), CNI calls are unlimited. The
history of all worlds, including those in the middle of an operation, is part of the state.

Verification of a path reads less than what was programmed: the presence of the chains, the
link and the gateway route. So `Looks` (verification cannot tell it from the wanted path) and
`Exactly` (it is the wanted path) are two predicates, and it is proved when the first means
the second. A schedule without interference is `Quiet`; only statements about the end of a
whole operation need it, because another may follow at once. A quiet schedule in which every
call works is `Calm`; under it each operation is proved to succeed exactly when its
precondition in the old state holds, so none of the safety results is met by refusing.

## What turned out to be false

Each is shown by a concrete input, and the exact condition is proved for all inputs.

- A passed check does not mean that the current generation's path is in force: a CNI call that
  programs generation 1 after the pass recorded generation 2 is never noticed
  (`OlderPathSurvives`; exactly when a check or a pass leaves the wanted path: `CheckedExactly`,
  `Adopt`, `ReconcileAll`).
- A certificate rotation cut short while its agents roll switches the certificate at its rerun
  although an agent is neither held nor able to verify it (`SwitchedBeforeRolled`; exactly when:
  `TrustedExactly`, `HeldExactly`).
- The rotation cannot observe its own third phase when the source CA lacks a final newline
  (`StuckWithoutNewline`; exactly then: `EffectIsObservedAsNext`).
- A provider port can be taken from a lease that never gave it up, when a listing older than
  the reservation is used to delete it by name (`StaleListTakesPort`; exactly when:
  `PortsKeptExactly`).
- A quarantine of 2^31 seconds or more does not reach its deadline, because the duration is
  stored in 32 bits (`OverflowedQuarantine`), nor does one of whole seconds asked for between
  two microseconds (`TruncatedQuarantine`; exactly when: `QuarantineReaches`).
- Asking again for an overlay address after a crash can take a second one, when an earlier
  position was passed over or released since (`AskingAgainTakesSecond`; exactly when:
  `SameAfterCrash`).
- A delete that arrives after its worker is gone takes an overlay address from the Pod that was
  given it since (`LateDeleteTakesAddress`; exactly when: `HoldersKeptExactly`).
- A pool can be reported exhausted with its first candidate free, when the conflict there
  vanished (`FreeYetExhausted`; exactly when: `ExhaustedMeansFull`).
- The installer loses the selected guard when it puts something unchained where the runtime
  looks first: the preserved primary (`MigrationLosesGuard`), the executable, or a receipt in the
  config directory, after which no rerun is accepted either (`ReceiptLosesGuard`; exactly when:
  `GuardAtEveryPrefix`, `RerunConverges`).
- An accepted installation is refused by its own validation when the preserved and the current
  primary differ in the text of a number or of a top-level key (`TextIsRefused`; this and every
  other case exactly: `InstallationValidates`).
- A clock that goes back lets a request be accepted twice (`BackwardClockReplays`; exactly when:
  `ReplayedExactlyWhenPruned`).
- A table write that is reported failed and yet committed lets a rule's generation fall
  (`CommittedFailureLowers`; exactly when a generation is not in order: `StepRemembers`,
  `MovesExactly`).
- An adapter acknowledges a renewal while the application is on another port: back on its own,
  after a withdrawal that restored it and then failed (`RenewedOnBackendPort`), or on that of
  another lease of the same application (`RenewedOnOthersPort`; exactly when: `StepKeepsInStep`,
  `PortIsLastSet`).

## Model

| member | source | states |
|---|---|---|
| HandoffSafety.SingleActive | internal/portforward/controller.go:182-257 | in every run with controller crashes, lost status writes, runtime restarts and backend failures, a lease's installed rules carry exactly the persisted generation and Pod, none is installed while no endpoint is persisted, and the runtime remembers nothing, that generation, or the previous one fully drained |
| HandoffSafety.EveryRuleAccounted | internal/portforward/controller.go:384-440 | in every run each installed rule is that of a persisted lease with its persisted generation and Pod, or of a lease whose finalizer was removed past the cleanup deadline without a confirmed withdrawal |
| HandoffSafety.ForcedPastDeadline | internal/portforward/controller.go:417-439 | a lease is retired without confirmation only by a cleanup pass past its deadline |
| HandoffSafety.BreakBeforeMake | internal/portforward/controller.go:312-355 | traffic of a live lease moves to another Pod or generation only through a moment with no rule for it |
| HandoffSafety.StepCannotSwitch | internal/portforward/controller.go:312-355 | no single step replaces a lease's rule by one for another Pod or generation |
| HandoffSafety.GenerationNamesOnePod | internal/portforward/controller.go:312-355 | a persisted generation never goes down and names one target for ever |
| HandoffSafety.StepAdvances | internal/portforward/controller.go:442-453 | each step keeps or raises the persisted generation, and keeps the target unless it clears it |
| HandoffSafety.Reachable | internal/portforward/controller.go:55-83 | the system invariant holds in every run |
| HandoffSafety.StepKeepsInv | internal/portforward/controller.go:55-97 | every event keeps the system invariant |
| HandoffSafety.ReconcileKeepsInv | internal/portforward/controller.go:55-97 | a reconcile pass up to its status write keeps the invariant of its own and of every other lease |
| HandoffSafety.CleanupKeepsInv | internal/portforward/controller.go:384-440 | cleanup of a deleted lease keeps the invariant, whichever call fails |
| HandoffSafety.WriteKeepsInv | internal/portforward/controller.go:442-453 | a status write, refused when the read is outdated, keeps the invariant |
| HandoffSafety.StatusCall | internal/portforward/controller.go:182-257 | after any runtime call the kernel still follows the persisted status, and the status then wanted may be written over it |
| HandoffSafety.DrainedCall | internal/portforward/controller.go:312-355 | the same for a drain |
| HandoffSafety.ServedCall | internal/portforward/controller.go:229-256 | the same for serving the persisted endpoint |
| HandoffSafety.WithdrawCall | internal/portforward/controller.go:312-355 | an exact withdrawal answer means no rule and a drained memory of that generation |
| HandoffSafety.ReconcileCall | internal/portforward/controller.go:229-256 | serving a persisted endpoint never shows a rule for another Pod or generation |
| HandoffSafety.ReadyIsBacked | internal/portforward/controller.go:361-382 | the controller wants to report Ready only while the kernel holds a rule of exactly the reported generation and Pod |
| HandoffSafety.StillThere | internal/portforward/controller.go:384-440 | a lease once seen is persisted or retired for good |
| LeaseController.PortForwardLeaseReconciler.DrainStatus | internal/portforward/controller.go:312-355 | one drain: the withdrawal it makes, the runtime it leaves and the status it wants |
| LeaseController.PortForwardLeaseReconciler.DesiredStatus | internal/portforward/controller.go:182-257 | one reconcile: the runtime call it makes, the runtime it leaves and the status it wants |
| GatewayRuntimeRuns.AtMostOneRulePerLease | internal/portforward/manager.go:294-303 | in every run of calls, outcomes and restarts the kernel table has at most one rule per lease |
| GatewayRuntimeRuns.WithdrawnStaysWithdrawn | internal/portforward/manager.go:222-286 | after a confirmed withdrawal there is no rule for the lease until a later Reconcile of that lease |
| GatewayRuntimeRuns.WithdrawRetires | internal/portforward/manager.go:232-266 | a confirmed withdrawal leaves no rule and nothing in memory that could show one |
| GatewayRuntimeRuns.StepKeepsRetired | internal/portforward/manager.go:134-159 | calls for other leases, withdrawals and restarts show no rule for a retired lease |
| GatewayRuntimeRuns.GenerationsRise | internal/portforward/manager.go:75-89 | while nothing is forgotten a remembered generation never falls, and leaving it or draining it takes a confirmed withdrawal of exactly that generation in between |
| GatewayRuntimeRuns.RulesChangeOnlyAcrossWithdrawal | internal/portforward/manager.go:75-89 | two generations seen in the kernel table are in order, with a confirmed withdrawal of the older one between them |
| GatewayRuntimeRuns.StepRemembers | internal/portforward/manager.go:134-186 | a call keeps a lease in order (generations rise only from a drained state, draining only by a confirmed withdrawal) if and only if it is not one of four: a restart, a confirmed provider release, an admitted reconcile whose refresh found no mapping, or one whose failed write was committed |
| GatewayRuntimeRuns.MovesExactly | internal/portforward/manager.go:134-286 | the same if and only if over any stretch of any run |
| GatewayRuntimeRuns.CommittedFailureLowers | internal/portforward/manager.go:150-159 | a concrete run in which a write reported failed but committed lets the shown generation fall |
| GatewayRuntime.GatewayRuntimeManager.constructor | internal/portforward/manager.go:50-61 | a started runtime remembers nothing and finds the kernel's rules |
| GatewayRuntime.GatewayRuntimeManager.Reconcile | internal/portforward/manager.go:63-186 | the states, table and reply of every branch: refusal, blocking, expiry, rollback, delivery |
| GatewayRuntime.GatewayRuntimeManager.Withdraw | internal/portforward/manager.go:222-286 | the states, table and reply of every branch: unknown generation, failed write, unconfirmed, released |
| GatewayRuntime.GatewayRuntimeManager.CurrentRules | internal/portforward/manager.go:294-303 | the rules are exactly those of the serving, unexpired states, one for each, in increasing lease UID |
| GatewayRuntime.GatewayRuntimeManager.Insert | internal/portforward/manager.go:294-303 | inserting a rule keeps the list sorted and adds only that rule |
| GatewayRuntime.GatewayRuntimeManager.ValidateCapabilities | internal/portforward/manager.go:188-220 | accepts exactly when protocols, shared port and, for an unknown lease, capacity allow it |
| NodeSafety.RecordedMeansGuarded | internal/cni/plugin.go:67-77 | at every point of every run of effects and cluster changes a recorded namespace is guarded, then and ever after |
| NodeSafety.GuardsAreForever | internal/dataplane/backend_linux.go:270-281 | no effect, no change and no failure makes a guarded namespace unrestricted |
| NodeSafety.EnrollmentIsSticky | internal/cni/plugin.go:148-163 | in runs without GC a Pod that once had a record has one until it is gone |
| NodeSafety.HeldOpensNothing | internal/nodeagent/service.go:380-386 | under a held transition a path that is open at any point of a run was open, with the same configuration, at every earlier point |
| NodeSafety.RunsAreChains | cmd/waycloak-node-agent/main_linux.go:199-237 | however the effects of CNI calls and of the pass interleave with cluster changes, every world follows every earlier one |
| NodeSafety.ChangeFollows | internal/cni/plugin.go:148-163 | no change of Pods, bindings, namespaces or mounts breaks a guard, a record or the absence of a Pod |
| NodeSafety.OthersMeetRely | cmd/waycloak-node-agent/main_linux.go:199-237 | any number of steps of the other processes and of the cluster is interference that a process is modelled under |
| NodeSafety.OlderPathSurvives | internal/nodeagent/service.go:180-205 | a concrete run after which the record of generation 2 is current and verifies while the path of generation 1 is in force, and a check changes nothing |
| NodeWorld.EffectKeepsGuarantee | internal/cni/plugin.go:67-103 | each effect a process has on the node, under its guard, keeps what the process guarantees |
| NodeWorld.GuaranteeMeetsRely | cmd/waycloak-node-agent/main_linux.go:199-237 | what any CNI call guarantees the pass and the other calls may rely on, and what the pass guarantees the calls may rely on |
| NodeWorld.FollowsTransitive | internal/cni/plugin.go:24-104 | guards, enrollment, absence of Pods and soundness compose over any number of steps |
| NodeWorld.Node.constructor | internal/cni/store.go:127-154 | a run starts from any sound world |
| NodeWorld.Node.Wait | internal/cni/plugin.go:252-269 | before an external call the others may have done anything they guarantee |
| NodeWorld.Node.Lockdown | internal/dataplane/backend_linux.go:56-61 | success leaves the namespace at the path denied and nothing else changed |
| NodeWorld.Node.Cleanup | internal/dataplane/backend_linux.go:270-326 | success means the namespace was denied during the call, under any interference; undisturbed it ends denied and without a link, and a failure leaves it as it was or denied |
| NodeWorld.Node.Configure | internal/dataplane/backend_linux.go:63-96 | success means exactly the wanted path was in force at its end; a failure may have changed the link but no rule |
| NodeWorld.Node.Verify | internal/dataplane/backend_linux.go:98-141 | passes, every call working, if and only if some path is open that agrees on chains, link, address and gateway route; the endpoint, the cluster mode and the generation are not read |
| NodeWorld.Node.Save | internal/cni/store.go:41-77 | a record of a guarded namespace is written whole or not at all |
| NodeWorld.Node.Delete | internal/cni/store.go:79-88 | a record goes only with its Pod, or in a run with GC |
| NodeWorld.Node.DeleteSibling | internal/nodeagent/service.go:496-508 | a record of a Pod that still exists goes only beside another kept record of that Pod |
| NodeService.Service.Authority | internal/nodeagent/service.go:612-632 | authority means the exact local Pod and the current binding equal to the request at a moment of the call, and returns what that binding asks for |
| NodeService.Service.Program | internal/nodeagent/service.go:154-166 | success means the namespace was denied and later exactly the wanted path was in force, both during the call, and that it verifies at the end; undisturbed it is then in force, and fails only without a namespace, changing nothing |
| NodeService.Service.Open | internal/nodeagent/service.go:158-166 | after the denial: programs and verifies; a path that does not verify is denied again, and by prepare also one that could not be programmed |
| NodeService.Service.PrepareNow | internal/nodeagent/service.go:149-170 | success means that during the call the requested binding was current and afterwards the namespace denied and then exactly its path in force; only that namespace changed; undisturbed it succeeds exactly with authority and a namespace, and otherwise changes nothing |
| NodeService.Service.Prepare | internal/nodeagent/service.go:142-147 | the same, and never while a transition is held |
| NodeService.Service.CheckNow | internal/nodeagent/service.go:180-205 | success means the binding was current during the call and its path verifies at the end; undisturbed it succeeds exactly with authority and a namespace, leaves a path that verifies alone and replaces another, and otherwise denies |
| NodeService.Service.Check | internal/nodeagent/service.go:172-178 | the same, and never while a transition is held |
| NodeService.CheckedExactly | internal/nodeagent/service.go:180-205 | after a successful check exactly the wanted path is in force if and only if before it no other path was open that verifies as well |
| NodeService.Service.WithdrawAttachment | internal/nodeagent/service.go:295-335 | success leaves the record's live namespace denied, and only that namespace changed |
| NodeService.Service.Withdraw | internal/nodeagent/service.go:284-293 | succeeds only for an exact durable record, whose live namespace is then denied |
| NodeReconcile.Reconciler.ReconcileAll | internal/nodeagent/service.go:380-410 | an undisturbed pass without error leaves every Pod UID with at most one live sandbox and every live Ready record matching the current binding UID, gateway and generation with a path that verifies; with every call working that path is exactly the wanted one if and only if the record was not misread (already current, with another path open that verifies as well); it removes records only with their Pod or as non-young siblings of that record; it succeeds exactly when each UID's records agree on a Pod that is gone or has at most one live record, locked down or adoptable; under a held transition every live recorded namespace ends denied and nothing is opened |
| NodeReconcile.Reconciler.ReconcileGroup | internal/nodeagent/service.go:412-509 | the same for one Pod UID, touching no record and no namespace of another; under interference every other listed record stays listed |
| NodeReconcile.Reconciler.ReconcileAgreed | internal/nodeagent/service.go:430-437 | records of a gone Pod are withdrawn, those of a Pod that cannot be read are left alone |
| NodeReconcile.Reconciler.ReconcileKnown | internal/nodeagent/service.go:430-454 | a gone Pod is withdrawn, an existing one reconciled, exactly as far as all its records are fine |
| NodeReconcile.Reconciler.ReconcilePresent | internal/nodeagent/service.go:439-454 | several live sandboxes of one Pod are an error and all of them are denied |
| NodeReconcile.Reconciler.ReconcileCurrent | internal/nodeagent/service.go:456-509 | a locked-down sandbox is left or denied again, a Ready one adopted before its siblings go |
| NodeReconcile.Reconciler.Adopt | internal/nodeagent/service.go:465-494 | success means the record's binding, gateway and generation are the Pod's current ones and its path verifies, and is exactly the wanted one if and only if the record was not misread; undisturbed it succeeds exactly for an adoptable record, and a revoked or replaced binding ends denied |
| NodeReconcile.Reconciler.Confirm | internal/nodeagent/service.go:465-476 | the same for a record whose generation is still current |
| NodeReconcile.Reconciler.Advance | internal/nodeagent/service.go:477-494 | a newer generation is recorded only after it was programmed and verified |
| NodeReconcile.Reconciler.RecordAdvance | internal/nodeagent/service.go:485-494 | a verified generation that cannot be recorded is denied again |
| NodeReconcile.Reconciler.RemoveSiblings | internal/nodeagent/service.go:496-508 | exactly the non-young other records of the Pod are removed, one kept record staying throughout |
| NodeReconcile.Reconciler.WithdrawGroup | internal/nodeagent/service.go:545-586 | records of a gone Pod are forgotten only after every live namespace was denied and the withdrawal published |
| NodeReconcile.Reconciler.QuarantineGroup | internal/nodeagent/service.go:527-543 | records that disagree on their Pod are all kept and their live namespaces denied |
| NodeReconcile.Reconciler.LiveAttachments | internal/nodeagent/service.go:511-525 | finds exactly the records whose own namespace is at its path |
| NodeReconcile.Reconciler.DenyKeys | internal/nodeagent/service.go:535-543 | success leaves the namespaces of all given live records denied and touches no other Pod's |
| NodeReconcile.Reconciler.LockdownAll | internal/nodeagent/service.go:230-282 | success leaves every live recorded namespace denied; no policy changes but to denial and every record stays |
| NodeReconcile.SiblingsDone | internal/nodeagent/service.go:496-508 | removing the stale siblings of a record whose path verifies settles the Pod UID |
| NodeReconcile.SiblingsExact | internal/nodeagent/service.go:496-508 | and leaves the exactness of that record as it was |
| NodeReconcile.ExactStep | internal/nodeagent/service.go:397-409 | settling one Pod UID keeps what was proved about the exact paths of the others |
| NodeReconcile.ProgressStep | internal/nodeagent/service.go:397-409 | settling one Pod UID keeps the others settled and their removals justified |
| CniPlugin.Plugin.Add | internal/cni/plugin.go:24-104 | success means a guarded namespace, or that no record of the Pod was listed and it then carried no label; a Pod that ever had a record and is not gone never gets a success without a guard; undisturbed it succeeds exactly for an unlabelled unrecorded Pod, a confirmed Ready record or an enrollable Pod |
| CniPlugin.Plugin.Enroll | internal/cni/plugin.go:67-103 | success means a Ready record of the guarded namespace whose binding was current, then denied, then exactly in force during the call; undisturbed it succeeds exactly for a labelled local Pod with a valid current binding and no held transition, and a failure ends denied and recorded |
| CniPlugin.Plugin.RecordDenied | internal/cni/plugin.go:67-77 | a record is saved only for a namespace already denied |
| CniPlugin.Plugin.Activate | internal/cni/plugin.go:95-103 | the record becomes Ready only after the agent denied the namespace and then opened exactly its binding's path |
| CniPlugin.Plugin.Allocate | internal/cni/plugin.go:78-103 | the same from the recorded denial on; a failure leaves the record and the denial |
| CniPlugin.Plugin.Bind | internal/cni/plugin.go:87-103 | the binding is recorded with the denial retained, then activated |
| CniPlugin.Plugin.Load | internal/cni/plugin.go:24-32 | the identity at the path and the record found under the key |
| CniPlugin.Plugin.AddRecorded | internal/cni/plugin.go:32-43 | success under an existing record means the same sandbox, path and namespace |
| CniPlugin.Plugin.AddUnrecorded | internal/cni/plugin.go:44-66 | the label is consulted only when no record of the Pod was listed |
| CniPlugin.MissingMeansGone | internal/cni/plugin.go:185-196 | a Pod that once had a record is missing from a listing only when it is gone |
| CniPlugin.Plugin.Check | internal/cni/plugin.go:113-136 | undisturbed success means a Ready record of this sandbox and namespace, its binding current and a path that verifies; every call working it succeeds exactly with authority and no held transition, leaving a path that verifies alone |
| CniPlugin.Plugin.Delete | internal/cni/plugin.go:138-183 | a record of a Pod that is not gone is kept and nothing changes; otherwise success removes exactly that record and leaves its live namespace denied; undisturbed it fails exactly when the Pod's name belongs to another UID or node |
| CniPlugin.Plugin.Forget | internal/cni/plugin.go:164-183 | a record goes only after the namespace at its path was denied |
| CniPlugin.Plugin.GC | internal/cni/plugin.go:198-223 | success keeps only named records, every dropped live namespace being denied unless its identity could not be read |
| CertificateRotation.EffectIsObservedAsNext | internal/waycloakctl/certificate.go:425-504 | each phase's effect is observed as exactly the next phase, except that publishing the overlap a second time needs a source CA ending in a newline |
| CertificateRotation.ObservedExactly | internal/waycloakctl/certificate.go:507-570 | a phase is observed exactly at its checkpoint, the four overlap phases exactly when the source CA ends in a newline |
| CertificateRotation.StripRecoversSource | internal/waycloakctl/certificate.go:579-593 | stripping the staged CA from the overlap recovers the source if and only if the source ends in a newline |
| CertificateRotation.StuckWithoutNewline | internal/waycloakctl/certificate.go:507-570 | a concrete plan whose third phase is not observed |
| CertificateRotation.ClassifiedExactly | internal/waycloakctl/certificate.go:528-570 | the nested comparisons decide exactly the nine independent checkpoint descriptions |
| CertificateRotation.Recoverable | internal/waycloakctl/certificate.go:579-593 | at which checkpoints the source CA can still be recovered |
| CertificateRotation.CheckpointAdvances | internal/waycloakctl/certificate.go:430-502 | the loop body takes each checkpoint to the next, whichever agents have restarted; pruning needs every agent's report through the new certificate |
| CertificateRotation.ServingAlwaysTrusted | internal/waycloakctl/certificate.go:436-494 | at every checkpoint the issuer of the serving certificate is in both published bundles, and in that of each agent counted as able to verify it |
| CertificateRotation.TrustedExactly | internal/waycloakctl/certificate.go:448-475 | in every run, at every point after the overlap was published, an agent can verify the served certificate if and only if it is not right after the switch, or the agent has restarted or had a bundle projected since the publication |
| CertificateRotation.SourceTrustExactly | internal/waycloakctl/certificate.go:436-468 | in every run an agent has the source bundle exactly until it restarts or has one projected after the publication |
| CertificateRotation.AgentVerifies | internal/waycloakctl/certificate.go:448-475 | at every checkpoint an agent can verify the served certificate, right after the switch only if it no longer has the source bundle |
| CertificateRotation.HeldExactly | internal/waycloakctl/certificate.go:448-489 | in every run, from the overlap roll to the final one, an agent is held if and only if it was held before or has restarted since |
| CertificateRotation.SwitchedBeforeRolled | internal/waycloakctl/certificate.go:447-468 | a concrete run cut inside the rollout wait whose rerun switches the certificate with an agent neither held nor able to verify it |
| CertificateRotation.RunAt | internal/waycloakctl/certificate.go:425-504 | every state of every run, cut and resumed anywhere while agents restart at will, is at the checkpoint its steps lead to, one further for each step of the tool |
| CertificateRotation.StepKeepsCheckpoint | internal/waycloakctl/certificate.go:425-504 | one step of the tool or of the cluster keeps or advances the checkpoint |
| CertificateRotation.MoveKeepsResumable | internal/waycloakctl/certificate.go:697-745 | an interrupted rotation stays resumable whatever its agents do meanwhile |
| CertificateRotation.OldTrustRetired | internal/waycloakctl/certificate.go:488-499 | after completion the old CA is trusted only by agents that never restarted during the rotation |
| CertificateRotation.HeldAcrossTheSwitch | internal/waycloakctl/certificate.go:448-494 | in every run the certificate is switched once, from the phase after the overlap roll, under a held template that stays held until the final roll, and an agent held at the switch can verify the served certificate ever after |
| CertificateRotation.OverlapContainsBoth | internal/waycloakctl/certificate.go:619-625 | the overlap bundle contains both CAs |
| CertificateRotation.RotationTool.Iterate | internal/waycloakctl/certificate.go:425-504 | one iteration completes, moves to the next checkpoint, stops where it was cut or its waits failed, or cannot name its phase exactly in the overlap phases of a source without newline; a roll that was waited for has reached every agent, and a held agent stays held until the final roll |
| CertificateRotation.RotationTool.Change | internal/waycloakctl/certificate.go:430-494 | the change of one phase and its waits: it moves on, or is cut at this checkpoint or the next |
| CertificateRotation.RotationTool.Await | internal/waycloakctl/certificate.go:738-797 | the waits pass only with every agent rolled, reporting through the served certificate and, at the end, not held |
| CertificateRotation.RotationTool.Advance | internal/waycloakctl/certificate.go:425-505 | uninterrupted it completes, within nine iterations of the twelve allowed, when the source CA ends in a newline or is no longer needed; cut short it leaves a resumable checkpoint no earlier than the one it found |
| CertificateRotation.RotationTool.Apply | internal/waycloakctl/certificate.go:355-505 | from every state an interrupted run leaves, a rerun completes towards the same identity with no agent held, or leaves such a state |
| CertificateRotation.DerivedDistinct | internal/waycloakctl/certificate.go:507-526 | the derived bundle and rotation identities cannot be confused with each other |
| CniInstaller.GuardAtEveryPrefix | internal/cniinstall/install.go:69-139 | a config selection that chained Waycloak does so at every crash prefix, legacy migration included, if and only if neither the preserved primary nor the executable nor the receipt is put where the runtime looks first |
| CniInstaller.GuardAfterWrite | internal/nodeagent/installation.go:111-127 | one write keeps the guard if and only if it does not put something unchained at the first selected name |
| CniInstaller.GuardAfterBackup | internal/cniinstall/install.go:101-104 | the first write keeps it exactly when the preserved primary is not selected |
| CniInstaller.GuardAfterExecutable | internal/cniinstall/install.go:115-121 | the second exactly when the executable is not |
| CniInstaller.GuardFromConfig | internal/cniinstall/install.go:122-161 | the others keep it, but for a receipt that sorts no later than the owned config |
| CniInstaller.MigrationLosesGuard | internal/cniinstall/install.go:69-104 | a concrete legacy migration that loses it |
| CniInstaller.ReceiptLosesGuard | internal/cniinstall/install.go:154-162 | a concrete receipt path in the config directory with which the last write loses the guard, the validation fails and every rerun is refused |
| CniInstaller.OwnedIsSelected | internal/nodeagent/installation.go:111-127 | once written, the owned config is the one the runtime loads if and only if nothing written so far sorts before it and the receipt does not replace it |
| CniInstaller.BinaryBeforeChain | internal/cniinstall/install.go:119-124 | at every prefix the owned config is unchanged or the executable it chains is in place, if and only if nothing is written over the executable |
| CniInstaller.RerunConverges | internal/cniinstall/install.go:65-163 | rerunning after any prefix of the writes is accepted if and only if what was written can be read back (nothing sorts first, no path it reads was written over, the config is not too long, the primary has no number beyond floating point), ends in the same files as an uninterrupted run, and succeeds if and only if that would have |
| CniInstaller.RerunSame | internal/cniinstall/install.go:101-162 | an accepted rerun ends in the files of an uninterrupted run, whichever paths coincide |
| CniInstaller.RerunSelection | internal/nodeagent/installation.go:111-127 | the rerun passes the selection check exactly when none of the files written so far sorts before the owned config |
| CniInstaller.RerunInPlace | internal/cniinstall/install.go:101-114 | the in-place layout decides the same config again, exactly when it can read back what it needs |
| CniInstaller.RerunOwned | internal/cniinstall/install.go:69-100 | the separately owned layout decides the same config, primary and restoration again, exactly when it can read back what it needs |
| CniInstaller.RenderIdempotent | internal/cniinstall/install.go:222-267 | rendering a rendered config changes nothing and reports it installed |
| CniInstaller.RenderedIsChained | internal/cniinstall/install.go:222-267 | a rendered config chains Waycloak once, after a primary plugin |
| CniInstaller.MeaningOfRendered | internal/cniinstall/install.go:343-346 | primaries whose rendered configs are equal as JSON mean the same but for the spelling of their top-level keys |
| CniInstaller.DecisionSound | internal/cniinstall/install.go:50-114 | every accepted decision rests on one unchained primary whose rendering it installs |
| CniInstaller.InstallationValidates | internal/nodeagent/installation.go:45-109 | an accepted installation runs to its end and passes the agent's validation if and only if its paths are apart, none of its files sorts before the owned config, that config is not too long to be read, and a primary left in place has the number texts and key spellings of the preserved one |
| CniInstaller.DigestIsMeaningAndText | internal/nodeagent/installation.go:132-149 | of two configs that mean the same the digests agree if and only if the number texts and the top-level key spellings do |
| CniInstaller.TextIsRefused | internal/cniinstall/install.go:101-162 | concrete accepted installations, for every other number text or key spelling, that their own validation refuses |
| CniInstaller.RequireWaycloakChain | internal/nodeagent/installation.go:183-203 | the scan accepts exactly the configs with Waycloak once and not first |
| CniInstaller.Installer.Plan | internal/cniinstall/install.go:50-114 | the checks before the first write decide refusal, config, backup and restoration |
| CniInstaller.Installer.Run | internal/cniinstall/install.go:101-163 | a run cut after any write leaves exactly that prefix; a refused one changes nothing; one whose executable replaced the source to be restored halts there; a whole one is done exactly when installable |
| AdapterHandler.AcknowledgedWasObserved | internal/qbittorrentadapter/handler.go:138-208 | in every run, across restarts and state-file failures at any point, an acknowledged record's exact application identity was applied and afterwards observed by the acknowledging Pod |
| AdapterHandler.AcknowledgedIsLastApplied | internal/qbittorrentadapter/handler.go:138-251 | in every run in which no call disturbs the lease, the application of an acknowledged record was last told exactly its port |
| AdapterHandler.StepKeepsInStep | internal/qbittorrentadapter/handler.go:132-251 | one event keeps memory and file of a lease in step with its application's port if and only if it does not put that application on another port, for this lease or another, and leave the lease marked applied |
| AdapterHandler.RenewedOnBackendPort | internal/qbittorrentadapter/handler.go:138-165 | a concrete renewal acknowledged while the application is back on its own port |
| AdapterHandler.RenewedOnOthersPort | internal/qbittorrentadapter/handler.go:132-208 | a concrete run in which a second lease takes the application's port and the first one's renewal is acknowledged |
| AdapterHandler.SetsExactly | internal/qbittorrentadapter/handler.go:167-251 | one call changes the port of exactly the application it tells, to what it says |
| AdapterHandler.PortIsLastSet | internal/qbittorrentadapter/handler.go:132-251 | in every run the application's port is the one that the last call about it said, whichever lease that call was for |
| AdapterHandler.RunBacked | internal/qbittorrentadapter/handler.go:60-79 | memory and state file are backed by the application's history in every run |
| AdapterHandler.DeliverBacked | internal/qbittorrentadapter/handler.go:132-208 | every branch of a delivery keeps that backing and acknowledges only with it |
| AdapterHandler.InstalledBacked | internal/qbittorrentadapter/handler.go:167-208 | a record is marked applied only after the application was configured with it |
| AdapterHandler.ObservingBacked | internal/qbittorrentadapter/handler.go:196-208 | a record is marked observed only after an observation by this Pod |
| AdapterHandler.Handler.constructor | internal/qbittorrentadapter/handler.go:60-79 | a started adapter knows exactly its state file |
| AdapterHandler.Handler.Deliver | internal/qbittorrentadapter/handler.go:132-209 | memory, file, history and answer of every branch: invalid, conflicting, renewed, still fresh, installed |
| AdapterHandler.Handler.InstallRecord | internal/qbittorrentadapter/handler.go:167-209 | the rollback of memory after each failing write or application call |
| AdapterHandler.Handler.Withdraw | internal/qbittorrentadapter/handler.go:211-251 | memory, file, history of application calls and answer of every branch of a withdrawal, invalid requests included |
| AdapterHandler.Handler.Persist | internal/qbittorrentadapter/handler.go:346-374 | a failed write leaves the old file or the new one |
| GatewayPackets.NewTunnelPackets | internal/portforward/rules_linux.go:133-179 | with the core, the lease and the engine's forward chain evaluated, a new tunnel packet that none of the engine's own rules is about is forwarded exactly when some lease rule has its protocol and port, and then to the overlay and the first such rule's target |
| GatewayPackets.InstalledSetForwards | internal/portforward/rules_linux.go:32-92 | of any rule set that is installed: such a packet is forwarded exactly when some rule takes it, and then to the target of the one with the lowest lease UID |
| GatewayPackets.EngineMeansCore | internal/gatewaydataplane/backend_linux.go:377-400 | the engine's chain with the core rules put in decides such a packet as the core chain does |
| GatewayPackets.EgressAndRepliesPass | internal/gatewaydataplane/backend_linux.go:257-266 | overlay egress and its tracked replies pass whatever the leases |
| GatewayPackets.TunnelLeavesOnlyToOverlay | internal/gatewaydataplane/backend_linux.go:257-266 | tunnel traffic that would leave anywhere but the overlay is dropped |
| GatewayPackets.CoreMeans | internal/gatewaydataplane/backend_linux.go:476-494 | the core chain accepts exactly egress, established returns and marked port-forward traffic |
| GatewayPackets.TailMeans | internal/portforward/rules_linux.go:67-87 | after the lease rules only untracked tunnel traffic is dropped |
| GatewayPackets.LeaseRulesFirst | internal/portforward/rules_linux.go:133-179 | the lease rules accept exactly their own translated flows before the rest of the chain is read |
| GatewayPackets.NatFindsAddressee | internal/portforward/rules_linux.go:133-179 | the first matching translation is that of the first rule with the packet's protocol and port |
| GatewayPackets.LowestLeaseWins | internal/portforward/rules_linux.go:36-66 | among rules that take a packet the lowest lease UID wins |
| GatewayPackets.OrderedSorts | internal/portforward/rules_linux.go:36-37 | the table order is the given rules sorted by lease UID |
| GatewayPackets.LinuxRuleBackend.Validate | internal/portforward/rules_linux.go:38-47 | accepts exactly when every rule is valid and no lease UID repeats |
| GatewayPackets.LinuxRuleBackend.Compile | internal/portforward/rules_linux.go:58-87 | the compiled chains are those of every rule and protocol in order, then the two closing rules |
| GatewayPackets.LinuxRuleBackend.Replace | internal/portforward/rules_linux.go:32-92 | a valid set replaces the table whole; otherwise nothing changes |
| WorkloadPolicy.OnlyTheTunnelLeaves | internal/dataplane/backend_linux.go:328-368 | an accepted, table-routed packet that leaves by neither loopback nor overlay is UDP to the exact endpoint, or in Preserve mode addressed to a cluster CIDR and not DNS unless to the endpoint itself |
| WorkloadPolicy.DnsStaysInTheTunnel | internal/dataplane/backend_linux.go:590-602 | DNS to any other address leaves only by the overlay, in every mode |
| WorkloadPolicy.ChainMeans | internal/dataplane/backend_linux.go:328-368 | exactly which packets the protected output chain accepts |
| WorkloadPolicy.LockdownMeans | internal/dataplane/backend_linux.go:56-61 | the lockdown chain accepts exactly loopback |
| WorkloadPolicy.RoutingMeans | internal/dataplane/backend_linux.go:544-588 | the main table is used exactly for the endpoint address and for preserved, non-DNS cluster destinations within the priority range |
| WorkloadPolicy.PreservedIsRoutedMain | internal/dataplane/backend_linux.go:562-573 | for a list of any length, exactly which preserved destinations bypass the protected table |
| WorkloadPolicy.PreservedReachesTheCluster | internal/nodeagent/service.go:714-720 | with the at most 64 CIDRs a binding can carry, a packet that is neither DNS nor for the endpoint is routed by the main table if and only if its destination is in the cluster, and is then accepted |
| WorkloadPolicy.LookupCluster | internal/dataplane/backend_linux.go:562-573 | the first cluster CIDR that contains a destination is taken at its own priority, and displaces nothing better |
| WorkloadPolicy.MaskIsContainment | internal/dataplane/backend_linux.go:467-483 | mask matching is prefix containment |
| WorkloadPolicy.PrefixesFirst | internal/dataplane/backend_linux.go:467-483 | a run of prefix rules decides exactly the destinations inside one of them |
| WorkloadPolicy.Backend.ReplacePolicy | internal/dataplane/backend_linux.go:328-368 | the output chain is replaced whole or not at all |
| WorkloadPolicy.Backend.ReconcilePolicyRules | internal/dataplane/backend_linux.go:544-588 | the rule list with one increasing priority for each IPv4 CIDR, or, after a failing addition, exactly the rules added before it |
| AddressOwnership.HolderChangesOnlyByRelease | internal/binding/allocation.go:170-193 | with any interleaving of API calls, lost and late ones included, an address keeps its holder until that holder's own release, started on a fresh exact withdrawal confirmation, deletes it, in every run without a misdirected call |
| AddressOwnership.QuarantineIsFinal | internal/binding/allocation.go:128-168 | in such a run a quarantined address is never granted or released again |
| AddressOwnership.Reachable | internal/controller/vpnworkloadbinding_controller.go:392-418 | in every run each call is its own Pod's and each release was started on a confirmed withdrawal |
| AddressOwnership.StepKeepsHolders | internal/binding/allocation.go:128-193 | one step leaves every reservation as it is, or released or quarantined by its holder, if and only if its call does not meet another Pod's reservation or a quarantine |
| AddressOwnership.HoldersKeptExactly | internal/binding/allocation.go:128-193 | the same if and only if over any stretch of any run |
| AddressOwnership.OnTimeIsDirected | internal/controller/vpnworkloadbinding_controller.go:392-418 | however calls interleave, fail and crash, only one that arrives after its worker is gone is ever misdirected |
| AddressOwnership.LateDeleteTakesAddress | internal/binding/allocation.go:170-193 | a concrete run in which a late delete takes an address from the Pod given it since |
| AddressOwnership.StepKeepsHolder | internal/binding/allocation.go:195-217 | no single directed call changes a holder but a confirmed release |
| AddressAllocation.Allocator.Reserve | internal/binding/allocation.go:64-126 | the store and outcome of the probing loop with every API call free to fail, committed or not; it terminates under finitely many vanishing conflicts |
| AddressAllocation.CandidateInPool | internal/binding/allocation.go:90-102 | every candidate is inside the pool and not network, gateway or broadcast |
| AddressAllocation.ProbeVisitsEachOnce | internal/binding/allocation.go:90-102 | the probe visits every usable address exactly once |
| AddressAllocation.GrantIsRecorded | internal/binding/allocation.go:98-124 | a grant is recorded as this Pod's active reservation; a call writes at most one reservation, its own, and only if it grants it or fails |
| AddressAllocation.ExhaustedMeansFull | internal/binding/allocation.go:98-125 | after exhaustion an address is free if and only if it is the first candidate and its conflict vanished |
| AddressAllocation.FreeYetExhausted | internal/binding/allocation.go:111-125 | a concrete pool reported exhausted with a free address |
| AddressAllocation.SameAfterCrash | internal/binding/allocation.go:58-124 | a controller that took an address, even by a create reported failed, and asks again on any later store that still has it gets the same one if and only if its identity is not quarantined and every candidate before that address is another's |
| AddressAllocation.SameIfNothingReleased | internal/binding/allocation.go:98-124 | if nothing was released since, that is exactly when the first candidate was not passed over or is now another's |
| AddressAllocation.AskingAgainTakesSecond | internal/binding/allocation.go:111-116 | a concrete Pod that ends with two addresses, after a vanished conflict and after a plain release |
| ProviderPortRuns.PortLeavesOnlyAfterQuarantine | internal/portforward/allocation.go:80-168 | with any interleaving of single API calls, failing anywhere and reading listings of any age, a port leaves a lease only once that lease's own quarantine of it has run out, and reached the deadline asked for wherever the stored duration can, in every run without a misdirected delete |
| ProviderPortRuns.PortsKeptExactly | internal/portforward/allocation.go:88-131 | over any stretch of any run every call keeps the ports if and only if no delete meets anything but an expired quarantine that the last call about the port asked for on behalf of the lease that has it |
| ProviderPortRuns.StepKeepsPorts | internal/portforward/allocation.go:102-107 | the same if and only if for one call |
| ProviderPortRuns.NoDoubleGrant | internal/portforward/allocation.go:111-131 | two leases are given one port only with the first one's quarantine run out in between |
| ProviderPortRuns.StaleListTakesPort | internal/portforward/allocation.go:84-131 | a concrete run in which a stale listing takes a port from a lease that holds it |
| ProviderPortRuns.CurrentReadsKeepPorts | internal/portforward/allocation.go:84-131 | if no call touches a port between a listing and its use for that port, every port of every run is kept until given up |
| ProviderPortRuns.QuarantinesAreOwn | internal/portforward/allocation.go:133-168 | with such reads no quarantine was asked for by another lease than the one that has the port |
| ProviderPortRuns.Reachable | internal/portforward/allocation.go:80-168 | in every run each reservation is inside the range and is what the last call about its port made it, a quarantine with the rounded, truncated time to its deadline |
| ProviderPortRuns.ReserveMovesAreEvents | internal/portforward/allocation.go:80-131 | each change a reservation pass makes is a step of the runs |
| ProviderPortRuns.QuarantineMovesAreEvents | internal/portforward/allocation.go:133-168 | and so is a quarantine |
| ProviderPorts.QuarantineReaches | internal/portforward/allocation.go:156-163 | the stored duration reaches the deadline if and only if the rounded seconds fit in 32 bits and rounding up gains at least what the microsecond truncation of the stored time loses |
| ProviderPorts.OverflowedQuarantine | internal/portforward/allocation.go:156-163 | a concrete deadline stored as one second |
| ProviderPorts.TruncatedQuarantine | internal/portforward/allocation.go:156-163 | a concrete whole-second quarantine that ends early |
| ProviderPorts.ReserveIdempotent | internal/portforward/allocation.go:90-109 | on a store with one active port per lease an undisturbed second reservation returns the port already held or fails |
| ProviderPorts.ProbeCoversRange | internal/portforward/allocation.go:111-118 | the probe reaches every port of 49152..65535 and no other |
| ProviderPorts.ProviderPortAllocator.Sweep | internal/portforward/allocation.go:88-109 | only quarantines that are expired in the listing are deleted, a failing delete ends the pass, and the lease's own listed port is found if it has one |
| ProviderPorts.ProviderPortAllocator.Reserve | internal/portforward/allocation.go:80-131 | under interference and failures, committed or not, a port is granted only if listed or read as this lease's or created where nothing was; undisturbed it is the lease's own port, a port that held nothing, or none exactly when every port is taken |
| ProviderPorts.ProviderPortAllocator.Probe | internal/portforward/allocation.go:111-130 | creates at most one reservation, and passes over a conflict unless a read shows it to be the lease's own |
| ProviderPorts.ProviderPortAllocator.QuarantineLease | internal/portforward/allocation.go:133-168 | quarantines the lease's one listed reservation, and refuses past deadlines and ambiguous leases; one that is gone is not created; a failure may have been committed |
| ReplayWindow.NoReplay | internal/cni/protocol_auth.go:100-107 | with a nondecreasing clock two accepted requests with one identifier have different issue times, the first already outside the window |
| ReplayWindow.Remembered | internal/cni/protocol_auth.go:136-152 | with any clock an accepted identifier, not accepted since, is in the table if and only if no fresh, authentic request in between pruned it |
| ReplayWindow.ReplayedExactlyWhenPruned | internal/cni/protocol_auth.go:100-152 | with any clock a repeated request that is fresh, with room in the table, is accepted again if and only if a request between the two pruned it |
| ReplayWindow.TableBounded | internal/cni/protocol_auth.go:136-152 | the table never exceeds its bound |
| ReplayWindow.BackwardClockReplays | internal/cni/protocol_auth.go:100-107 | a concrete clock step back that lets a request be accepted twice |
| ReplayWindow.ProtocolAuthenticator.ConsumeRequestId | internal/cni/protocol_auth.go:136-152 | prunes exactly the stale identifiers, then refuses a known one and a full table |
| ReplayWindow.ProtocolAuthenticator.VerifyRequest | internal/cni/protocol_auth.go:75-109 | accepts only fresh, authentic requests, and only those reach the table |
| MacFraming.EncodeInjective | internal/cni/protocol_auth.go:162-171 | the MAC input is injective on field lists |
| MacFraming.DecodeEncode | internal/cni/protocol_auth.go:162-171 | a decoder recovers the fields |
| MacFraming.MessagesUnambiguous | internal/cni/protocol_auth.go:154-160 | no request input equals a response input or that of a different request |
| MacFraming.MacInput | internal/cni/protocol_auth.go:162-171 | the loop writes the length-prefixed encoding of its fields |
| MacFraming.ValueOfBigEndian | internal/cni/protocol_auth.go:164-167 | the eight-byte length prefix holds the length |

## Left out

- Observations and readiness reports of the node agent: a Ready observation does not imply an open path, and none of the results needs one.
- NodeWorld.Node.Verify: the checks that the link is up and the gateway answers are one outcome of the call; what is read of the chains is their presence.
- NodeWorld.Node.Configure: its link and route calls are one step, which on failure may leave any link; the rules are replaced last.
- NodeReconcile.Reconciler.ReconcileAll: the statements about the end of a pass are for a pass that no CNI call and no cluster change disturbs; its guards, retention and held transition hold under interference.
- NodeReconcile.Reconciler.RemoveSiblings: one clock reading serves the whole pass.
- Listings of the record directory are one step; the code reads its files one by one.
- One CNI network, and validation of request strings.
- LeaseController: condition texts, telemetry, requeue times and the evaluation of backends, slices and adapters, which is an input.
- HandoffSafety.SingleActive: one elected controller with synchronous runtime calls; two controllers at once and delayed calls are not claimed, nor that every drain completes.
- AdapterHandler.AcknowledgedWasObserved: an acknowledgement is about the past; a renewal refreshes the observation time without observing, and an application that changes its port by itself is not modelled.
- GatewayPackets.NewTunnelPackets: the VPN engine's own rules are not known, so the statement is for packets none of them matches; packets enter unmarked, as locally set marks do not travel; IPv6 is not part of this model.
- GatewayPackets.LinuxRuleBackend.Compile: source translation after routing, which does not decide what is forwarded.
- GatewayPackets.LinuxRuleBackend.Replace: the marker strings that `Ready` and `Withdrawn` look up are not modelled.
- WorkloadPolicy.OnlyTheTunnelLeaves: IPv4 packets; the protected table's default route is taken to be the overlay, and the DNS and application-port translations after the filter are not modelled.
- WorkloadPolicy.Backend.ReplacePolicy: the DNS and application-port translation chains written in the same batch.
- CertificateRotation: X.509 parsing and Secret preconditions; digests are compared as the bytes they stand for.
- CertificateRotation.ServingAlwaysTrusted: the relay is taken to serve the Secret's certificate at once, and nodes to join but not to leave.
- CniInstaller: partial exclusive creation of the backup, ownership, mode and symbolic-link checks, paths that are two spellings of one file, a source binary among the written files, and of JSON text everything but meaning, key order, number text and top-level key spelling.
- AddressAllocation: hashes are taken as given start positions and reservation names as injective; interleaved reservations of others are in `AddressOwnership`.
- AddressOwnership.HolderChangesOnlyByRelease: one worker per binding at a time; calls of a former leader are those that arrive late.
- ProviderPorts: reservation names are taken as injective in the port, so that a port has one reservation; malformed listed reservations, and recovery of a reservation from a deleted lease.
- HTTP, TLS, SPIFFE, token review, JSON decoding, gateway provisioning, Helm and release resolution: plumbing or object construction.
