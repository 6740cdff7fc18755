# Argus authorization kernel: a verified model

This project models the Argus authorization kernel and the chained instance built around it.

The kernel is a state machine over a tree of agents. Each agent has capabilities, a set of
confidentiality labels and a set of integrity labels. A tool invocation passes an admission gate
(allow, inspect or deny), is in flight until it is settled, and then leaves its output labels with
its owner without another check. Agents also ingest content, cross output to one another, spend
one-use evidence and grant uses, and are revoked with everything they own.

Around the kernel, a live instance runs one command at a time, refuses what could exceed its
capacity profile, and links every accepted command into a hash chain. A recovery instance replays
recorded links and becomes a live instance again at an anchor.

## How it is arranged

| file | what it holds |
|---|---|
| Types.dfy | identities, lattices, records, commands, actions, errors |
| Spec.dfy | the state machine on maps and sets: gates, holds, the twelve commands, runs |
| Protocol.dfy, Refinement.dfy | the protocol as its Lean design states it, and the proof that the state machine is that protocol |
| Laws.dfy, Refusals.dfy | what each command means field by field, and which error a refused one reports |
| Invariants.dfy, Confinement.dfy, Forest.dfy | what every reachable state satisfies |
| Journal.dfy | every reachable state recomputed from its journal, and what each part of it rests on |
| Provenance.dfy, Settlement.dfy, Summary.dfy, Accounting.dfy | what else whole runs satisfy |
| Collections.dfy, KernelState.dfy, Transitions.dfy | the vectors, index loops and in-place updates, proved against Spec |
| Capacity.dfy, Limits.dfy | the capacity profile and the preflight, and the loops that compute them |
| Reservations.dfy, Excesses.dfy | how exact the preflight is, and runs on which it is too cautious |
| Sorting.dfy, Projections.dfy | in-place sorting and the sorted observation of a state |
| Encoding.dfy, Chain.dfy, Transcripts.dfy, Wire.dfy | the canonical transcript, its writer, its unique decodability and its bytes |
| HashChains.dfy, History.dfy, Instances.dfy | chains in general, live and recovery histories, and the instance objects |
| Releases.dfy | what a live instance can always give back |

`dafny verify dfyconfig.toml` checks everything.

## Conventions

- Texts are byte strings. The representation of sets is a parameter of the records: wire commands
  and the Vec-backed kernel use sequences, the state machine uses sets.
- The digest is a parameter. It is never assumed to be injective, because no function from all
  transcripts to 32 bytes is. What one anchor determines is therefore stated up to a collision between
  two transcripts that the two histories really hashed.
- Theorems about runs take a background whose root is the initial root, which is how every instance is
  built: `state.rs` fixes the initial root and `wire.rs` never overrides the background’s.
- A transition that refuses leaves its state as it was. The source takes the state by value; here the
  instance clones the kernel object first, and the transition updates the clone.
- The protocol observes a state pointwise. A label or capability key bound to no element is not an
  observation, so the machine and the protocol agree up to such keys; sizes and text count them.
- The summary kernel, the ledger of grants, the chains of deliveries and the cascade runs are
  definitions of this project, there to say what whole runs do.

## What turned out not to hold

- The preflight is sound but not complete. `PreflightExact` says when it passes: the next state fits and
  so does what the command reserves without using it (`Spare`). Seven commands reserve nothing idle. A new
  balance for a bound key needs room for a second key. An admission needs room for a record and for a
  challenge, and for the text of both. A resolution needs a record even if it leaves none. A settlement
  needs two label keys even if they are bound, and does not count the record it frees. A crossing needs a
  receiver that is full in neither dimension, two label keys, and a slot for its evidence even if it spends
  none. The twelve lemmas of `Excesses` give a run and a command for each.
- The design states replay equivalence for actions whose parameters are left open, and does not prove it
  (`Audit.lean:231-236`). It fails (`KindsDoNotReplay`) and holds once the parameters are fixed
  (`TracesAgree`).
- The design requires that the id of a challenge under resolution is spent; the machine does not test it
  (`AuthorizeGuardAgrees`). On reachable states it always is, so the two agree on every run.
- A full text budget can therefore block a settlement, which `SettlementIsBlockedExactly` makes exact.
  Revoking its owner is never blocked.
- The transcript determines a command only up to order and duplicates in its three lists
  (`ListsAreForgotten`), and only for texts under 2^32 bytes: `LongTextsCollide` gives two commands beyond
  that bound with one transcript. The preflight’s size check supplies the bound for everything that is linked.
- Active does not mean attached (`ActiveButDetached`): orphans stay active until a cascade reaches them, so
  capability ancestry is stated along active ancestors, and `CascadesDrain` says what cascading reaches.

## Model

| member | source | states |
|---|---|---|
| Invariants.RunInv | tzimtzum/Tzimtzum/Invariants.lean:19-325 | In every run from the initial state: root stays active, the parent edges form a forest over exactly the other active agents, children hold no more than their active parents, inactive agents own nothing, every record and challenge keeps what admission froze, no two records share an inspection, and contained records tolerate every label their owner holds and one another’s outputs. |
| Invariants.StepKeepsInv | argus/crates/argus-kernel/src/transitions.rs:26-1113 | Each of the twelve commands, accepted in a state that satisfies the invariant, leaves one that does. |
| Invariants.DelegateKeepsInv | argus/crates/argus-kernel/src/transitions.rs:77-129 | Delegation keeps the whole invariant; the new agent starts with an empty compartment below an active grantor. |
| Invariants.ClearKeepsInv | argus/crates/argus-kernel/src/transitions.rs:257-266 | Destroying any agent but root keeps the whole invariant, although its children become orphans. |
| Invariants.ReleaseKeepsInv | argus/crates/argus-kernel/src/transitions.rs:384-408 | Releasing labels keeps confinement when the holds pass, or when the bypass demotes every record of the receiver under monitor mode. |
| Invariants.SettleKeepsInv | argus/crates/argus-kernel/src/transitions.rs:415-489 | Settlement absorbs output labels without any check and still keeps confinement: admission had established it. |
| Invariants.PendKeepsInv | argus/crates/argus-kernel/src/transitions.rs:762-803 | A record that passed its gate can join every other record in flight without breaking confinement in either direction. |
| Invariants.BeginKeepsInv | argus/crates/argus-kernel/src/transitions.rs:701-834 | All arms of admission keep the invariant: permitted record, enforce-mode challenge, monitor-mode bypass. |
| Invariants.AuthorizeKeepsInv | argus/crates/argus-kernel/src/transitions.rs:858-909 | Resolving a challenge keeps the invariant whether it admits a record or closes without one. |
| Invariants.CrossKeepsInv | argus/crates/argus-kernel/src/transitions.rs:985-1113 | A crossing keeps the invariant on all three branches. |
| Confinement.RunConfined | tzimtzum/Tzimtzum/Invariants.lean:152-233 | In every reachable state every label a contained invocation’s owner holds, or could still absorb from any of its contained invocations, is allowed on each attested channel (or inspected with the invocation vouched), clears its clearance and clears its floor; the invocation is authorized and its capabilities are held. |
| Confinement.RunModeHonest | tzimtzum/Tzimtzum/Invariants.lean:252-290 | Under enforce mode every pending record is permitted and not bypassed; under monitor mode no challenge is open. |
| Confinement.RunInspectionsDistinct | tzimtzum/Tzimtzum/Invariants.lean:270-279 | No two pending records rest on one inspection, and the inspection was spent. |
| Confinement.RunChallengeGuardsRedundant | argus/crates/argus-kernel/src/transitions.rs:838-883 | For an open challenge of a reachable state the structural guards always hold and the omitted consumed-id check would pass: the record is admitted exactly when the inspector is positive and the live gate admits the frozen scope. |
| Confinement.RunDeadErrors | argus/crates/argus-kernel/src/transitions.rs:430-432 | No reachable state ever answers ChallengeAlreadyOpen or BlockedPending. |
| Confinement.StrictIsAdmissible | argus/crates/argus-kernel/src/transitions.rs:741-756 | The strict gate implies the admissible gate, so the verdict is a three-way partition. |
| Confinement.VerdictWorsens | argus/crates/argus-kernel/src/transitions.rs:741-756 | The verdict only worsens as the agent gains labels or records in flight, or loses capabilities. |
| Forest.RunNoCycle | tzimtzum/Tzimtzum/Invariants.lean:31-43 | In every reachable state climbing parent edges never returns to its start. |
| Forest.RunOneParent | tzimtzum/Tzimtzum/Invariants.lean:19-49 | In every reachable state exactly the active agents other than root have a parent edge, and root is active. |
| Forest.RunCapabilityAncestry | tzimtzum/Tzimtzum/Invariants.lean:50-63 | In every reachable state an agent’s capabilities are held by every ancestor reached through active agents, and root holds all fifteen. |
| Forest.RunRevocationClean | tzimtzum/Tzimtzum/Invariants.lean:64-80 | In every reachable state an inactive agent has no capability, label, record, challenge or grant. |
| Forest.ActiveButDetached | argus/crates/argus-kernel/src/transitions.rs:202-226 | Active does not mean attached: after delegating to an agent, from it to a second one, and revoking the first from root, the second is active, cut off from root, and open to a cascade. |
| Forest.CascadeEnabledIffDetached | argus/crates/argus-kernel/src/transitions.rs:229-253 | A cascade is enabled exactly while some active agent is detached from root. |
| Forest.CascadeStep | argus/crates/argus-kernel/src/transitions.rs:229-266 | A cascade removes one detached agent and changes nobody else’s attachment. |
| Forest.CascadesDrain | argus/crates/argus-kernel/src/transitions.rs:229-266 | Every run of cascades is at most as long as the number of detached agents, never removes an attached one, and is maximal exactly when the active agents are those attached to root. |
| Forest.RunCascadesDrain | argus/crates/argus-kernel/src/transitions.rs:229-266 | The same from every reachable state: all maximal runs leave the same agents active. |
| Provenance.SpeculativeLabelsNeverShrink | argus/crates/argus-kernel/src/state.rs:75-105 | From any state, over any run segment in which an agent stays active its worst-case taint and integrity only grow. |
| Provenance.SettlementExact | argus/crates/argus-kernel/src/transitions.rs:454-469 | A settlement, whatever its outcome, leaves every agent’s worst-case labels exactly as they were; an ordinary one turns the frozen outputs into held labels. |
| Provenance.ChainCarries | argus/crates/argus-kernel/src/transitions.rs:348-397 | A confidentiality level passed along any chain of deliveries through agents that stay active is dominated by the last agent’s taint, and every contained invocation of that agent clears it and allows it (or inspects it vouched) on every channel. |
| Provenance.ChainSinks | argus/crates/argus-kernel/src/transitions.rs:348-397 | Dually, along a chain without endorsement the last agent’s integrity is at most the level that entered, and every contained invocation of it accepts that level. |
| Provenance.RunProvenance | argus/crates/argus-kernel/src/transitions.rs:348-1087 | Both, for every label held at the start of a chain in any reachable state: it is dominated by what the last agent holds, and every contained invocation of that agent clears and allows it (or, without endorsement, accepts it as its integrity). |
| Settlement.SettleStillAccepted | argus/crates/argus-kernel/src/transitions.rs:420-451 | A settlement leaves every other acceptable settlement acceptable, given distinct resolution ids. |
| Settlement.SettlementsCommute | argus/crates/argus-kernel/src/transitions.rs:415-489 | Two settlements of different invocations reach the same state in either order, including when one demotes or quarantines. |
| Summary.TopIsMaximum | argus/crates/argus-kernel/src/types.rs:78-140 | The summary of a label set is exactly its maximum (minimum), and nothing for an empty set. |
| Summary.SummaryStep | argus/crates/argus-kernel/src/transitions.rs:26-1113 | A kernel that keeps per agent only the maximum taint and minimum integrity gives every command the same error, or the same action and a next state with the same summary. |
| Summary.SummaryRunIs | argus/crates/argus-kernel/src/transitions.rs:26-1113 | The forgetful run is, after every command, the summary of the full run. |
| Summary.SummaryBisimulates | argus/crates/argus-kernel/src/transitions.rs:26-1113 | After every run the forgetful kernel answers the next command exactly as the full kernel does. |
| Summary.SummaryRunIsSmall | argus/crates/argus-kernel/src/types.rs:78-140 | The forgetful kernel never keeps more than one level per agent and dimension. |
| Accounting.StepSpends | argus/crates/argus-kernel/src/transitions.rs:470-1095 | Every accepted command adds exactly the ids it uses to the consumed histories, and they were unspent. |
| Accounting.RunSpendsOnce | argus/crates/argus-kernel/src/transitions.rs:470-1095 | In every run the consumed histories are exactly the ids the accepted commands used; no invocation begins twice, no crossing crosses twice, and no attestation is spent twice across inspection, resolution and endorsement, even across revocation and re-delegation. |
| Accounting.RunGrantsBalance | argus/crates/argus-kernel/src/state.rs:175-196 | In every run and for every holder and assignment the live grant equals the latest provisioning since the holder was last delegated or revoked, less the endorsed crossings accepted since; endorsed crossings never exceed what was provisioned. |
| Refinement.GatesAgree | tzimtzum/Tzimtzum/Actions/Invoke.lean:200-243 | The strict and the admissible gate of the machine are the protocol’s begin-allow and begin-admissible predicates, check by check, with ceilings and ranks written out. |
| Refinement.VerdictAgrees | tzimtzum/Tzimtzum/Actions/Invoke.lean:282-287 | The computed verdict is the one verdict that the protocol’s guard allows. |
| Refinement.GuardAgrees | tzimtzum/Tzimtzum/Actions.lean:21-37 | The machine accepts a command with an outcome exactly if the protocol’s guard allows that action; for a resolution, where the id of the open challenge is spent. |
| Refinement.AuthorizeGuardAgrees | tzimtzum/Tzimtzum/Actions/Invoke.lean:368-404 | Without that premise: the protocol’s guard is the machine’s acceptance and the spent id, which the machine does not test. |
| Refinement.NextAgrees | tzimtzum/Tzimtzum/Actions.lean:21-37 | An accepted command changes every observation exactly as the protocol says, and no other. |
| Refinement.StepIsTransition | tzimtzum/Tzimtzum/Actions.lean:21-37 | The protocol takes a state to another by an action exactly if the machine accepts the command with that outcome and its next state cannot be told apart from the other. |
| Refinement.GuardSeen | tzimtzum/Tzimtzum/State.lean:130-175 | Whether an action is allowed depends on observations only. |
| Refinement.RunIsTrace | tzimtzum/Tzimtzum/Soundness.lean:1-145 | Every run of the machine is a run of the protocol, state by state. |
| Refinement.TraceIsRun | tzimtzum/Tzimtzum/Soundness.lean:1-145 | Every run of the protocol is a run of the machine: the same commands accepted with the same outcomes, ending in a state that cannot be told apart. |
| Refinement.TracesAgree | tzimtzum/Tzimtzum/Audit.lean:218-236 | Replay equivalence: one list of commands has one list of outcomes and one observable final state. |
| Refinement.KindsDoNotReplay | tzimtzum/Tzimtzum/Audit.lean:231-236 | The design’s own statement, which fixes the kinds of the actions but not their parameters, fails: two runs of one registration each end apart. |
| Laws.BeginStores | argus/crates/argus-kernel/src/transitions.rs:701-834 | An accepted admission stores exactly the agent, policy, attested channels and authorization of the command: a plain permitted record when allowed, a bypassed one under monitor mode, otherwise a challenge that also has the challenge id and the arguments; nothing is quarantined and every other entry stays. |
| Laws.AuthorizeAccepts | argus/crates/argus-kernel/src/transitions.rs:858-884 | An attestation resolves a challenge exactly if invocation, challenge, arguments and policy match and its id is unspent. |
| Laws.AuthorizeStores | argus/crates/argus-kernel/src/transitions.rs:884-909 | The challenge closes, the id is spent, and the vouched record appears, with everything the challenge was bound to, exactly if the inspector is positive and the live conditions hold. |
| Laws.SettleAccepts | argus/crates/argus-kernel/src/transitions.rs:415-451 | A quarantined record settles exactly with unspent evidence for this invocation and this outcome, and not as ambiguous; any other exactly without evidence. |
| Laws.CrossBranches | argus/crates/argus-kernel/src/transitions.rs:917-1053 | The branch is endorsed exactly on positive, unspent evidence for this output, source, receiver, descriptor and assignment and a grant with a use left; otherwise the fallback decides; an endorsed pair keeps both bounds. |
| Laws.CrossReleases | argus/crates/argus-kernel/src/transitions.rs:1063-1087 | The receiver gains the endorsed pair, or all labels of the source, or nothing, by branch; nobody else gains or loses a label. |
| Laws.GrantCapabilityAdds | argus/crates/argus-kernel/src/transitions.rs:132-156 | The child gains exactly the granted capability, and nobody else’s capabilities change. |
| Laws.IngestReports | argus/crates/argus-kernel/src/transitions.rs:348-408 | An ingest is reported permitted exactly if every record of the agent tolerates the pair, by rank, clearance, ceilings and floors; otherwise it is bypassed under monitor mode and refused under enforce mode. |
| Laws.CommandsReadAlike | ex_argus/native/argus_nif/src/command.rs:49-134 | Two wire commands are read as one kernel command exactly if they agree in everything but the order and repetitions of three lists. |
| Journal.RunIsJournal | argus/crates/argus-kernel/src/transitions.rs:26-1113 | Every reachable state is recomputed from its journal of accepted commands and outcomes alone, with no gate evaluated: tree, capabilities, labels, records, challenges and tools, field by field. |
| Journal.JournalDetermines | argus/crates/argus-kernel/src/transitions.rs:26-1113 | Two runs with one journal end in states that cannot be told apart, whatever their ceilings and their refused commands. |
| Journal.RecordOrigin | argus/crates/argus-kernel/src/transitions.rs:762-803 | Every record in flight carries exactly the agent, policy, channels and authorization of the one accepted command with its id, and was admitted as that command’s verdict and the mode say. |
| Journal.ChallengeOrigin | argus/crates/argus-kernel/src/transitions.rs:790-803 | Every open challenge is bound to exactly what the one accepted command with its id carried, arguments and challenge id included. |
| Journal.VouchOrigin | tzimtzum/Tzimtzum/Audit.lean:43-60 | Every vouched record rests on an accepted resolution whose attestation is positive and names the invocation, challenge id, arguments and policy of the command that began it. |
| Journal.BeginsOnce | tzimtzum/Tzimtzum/Transitions.lean:446-470 | In no run does one id begin two invocations. |
| Journal.QuarantineStep | tzimtzum/Tzimtzum/Transitions.lean:472-490 | A quarantined record of a reachable state stays quarantined unless the command revokes its owner or settles it on fresh evidence for this invocation and outcome. |
| Journal.QuarantineEnds | tzimtzum/Tzimtzum/Transitions.lean:472-490 | Whenever a quarantined record is gone later in a run, one command in between did exactly that. |
| Journal.CapabilityOrigin | argus/crates/argus-kernel/src/transitions.rs:132-156 | In every run an agent other than root holds exactly what was granted to it after its last delegation or revocation. |
| Refusals.RefusedExactly | argus/crates/argus-kernel/src/transitions.rs:26-1113 | Each command has a list of rules in the source’s order; it is accepted exactly if none is broken, and reports an error exactly if it is the error of the first broken one, the five checks behind a denied admission included. |
| Refusals.ApplyRefusedExactly | ex_argus/native/argus_nif/src/instance.rs:157-169 | A live command reports a spent sequence, then capacity, then the kernel’s refusal. |
| Refusals.ReplayRefusedExactly | ex_argus/native/argus_nif/src/instance.rs:106-136 | A recorded link reports the first of: state, sequence, version, sequence number, predecessor, capacity, kernel refusal, action, digest. |
| Refusals.FinalizeRefusedExactly | ex_argus/native/argus_nif/src/instance.rs:138-149 | An anchor of another version is reported first, then one of another sequence or head. |
| Collections.AsMapEntries | argus/crates/argus-kernel/src/collections.rs:16-116 | With unique keys each stored entry is found at its own key, nothing else is bound, and the entries are as many as the keys. |
| Collections.KeepIs | argus/crates/argus-kernel/src/collections.rs:77-87 | A rebuild that keeps entries by a test is the map restricted by that test. |
| Collections.RewriteIs | argus/crates/argus-kernel/src/collections.rs:60-74 | A rebuild that rewrites values is the map with its values rewritten. |
| Collections.VecSet.Len | argus/crates/argus-kernel/src/collections.rs:259-261 | The number of members of the set. |
| Collections.VecSet.IsEmpty | argus/crates/argus-kernel/src/collections.rs:263-265 | True exactly of the empty set. |
| Collections.VecSet.Contains | argus/crates/argus-kernel/src/collections.rs:267-277 | The latched scan answers set membership. |
| Collections.VecSet.Insert | argus/crates/argus-kernel/src/collections.rs:280-284 | Adds the element, keeps members unique and keeps the order of those already there. |
| Collections.VecSet.Remove | argus/crates/argus-kernel/src/collections.rs:287-297 | Rebuilds to the set without the element. |
| Collections.VecSet.UnionWith | argus/crates/argus-kernel/src/collections.rs:305-311 | In-place set union. |
| Collections.VecMap.Find | argus/crates/argus-kernel/src/collections.rs:43-57 | The scan yields the last matching position, or the length when there is none. |
| Collections.VecMap.ContainsKey | argus/crates/argus-kernel/src/collections.rs:31-41 | Answers whether the key is bound. |
| Collections.VecMap.GetCloned | argus/crates/argus-kernel/src/collections.rs:103-116 | The bound value, or none. |
| Collections.VecMap.Insert | argus/crates/argus-kernel/src/collections.rs:60-74 | Map update with unique keys kept. |
| Collections.VecMap.Remove | argus/crates/argus-kernel/src/collections.rs:77-87 | Removes exactly the binding of the key. |
| Collections.VecMap.KeyAt | argus/crates/argus-kernel/src/collections.rs:90-92 | The key at a position is bound to the value stored there. |
| Collections.InsertInto | argus/crates/argus-kernel/src/collections.rs:124-141 | Inserts an element into the set at a key, creating the set when the key is unbound. |
| Collections.MapVisit | argus/crates/argus-kernel/src/collections.rs:90-116 | A traversal step, key by position and value by lookup, meets exactly the entry at that position. |
| Collections.MapGetSet | argus/crates/argus-kernel/src/collections.rs:166-171 | The set at a key, or the empty set. |
| Collections.MapSetContains | argus/crates/argus-kernel/src/collections.rs:174-179 | Membership in the set at a key. |
| Collections.Collect | argus/crates/argus-kernel/src/collections.rs:322-330 | Collecting a list drops duplicates and nothing else. |
| Kernel.KernelState.Initial | argus/crates/argus-kernel/src/state.rs:41-69 | Root alone is active and holds all fifteen capabilities; everything else is empty. |
| Kernel.KernelState.SpeculativeTaint | argus/crates/argus-kernel/src/state.rs:75-88 | The loop computes the held taint together with the output level of every record of the agent, without duplicates. |
| Kernel.KernelState.SpeculativeInteg | argus/crates/argus-kernel/src/state.rs:92-105 | The same for integrity. |
| Kernel.KernelState.DropPendingOf | argus/crates/argus-kernel/src/state.rs:126-139 | Rebuilds the records to those of other agents, and changes nothing else. |
| Kernel.KernelState.DropChallengesOf | argus/crates/argus-kernel/src/state.rs:142-155 | Rebuilds the challenges to those of other agents. |
| Kernel.KernelState.DemoteAllOf | argus/crates/argus-kernel/src/state.rs:159-173 | Marks every record of the agent bypassed, keeping how it was admitted. |
| Kernel.KernelState.DecrementGrantAt | argus/crates/argus-kernel/src/state.rs:178-196 | Takes one use of an existing grant; the subtraction cannot underflow. |
| Kernel.KernelState.DropGrantsOf | argus/crates/argus-kernel/src/state.rs:199-212 | Rebuilds the grants to those of other holders. |
| Kernel.DropPendingIs | argus/crates/argus-kernel/src/state.rs:126-139 | The rebuilt vector is the map without the agent’s records. |
| Kernel.DemoteIs | argus/crates/argus-kernel/src/state.rs:159-173 | The rebuilt vector is the map with the agent’s records demoted. |
| Kernel.AllOwnedIs | argus/crates/argus-kernel/src/state.rs:126-173 | A latched scan over the records of an agent answers the quantifier over the map. |
| Kernel.OutputsAre | argus/crates/argus-kernel/src/state.rs:75-105 | A scan that collects output levels collects exactly those of the agent’s records. |
| Transitions.RegisterTool | argus/crates/argus-kernel/src/transitions.rs:26-35 | Answers and acts as the abstract command; a refusal changes nothing. |
| Transitions.ScanToolInUse | argus/crates/argus-kernel/src/transitions.rs:46-66 | The two latched scans find exactly the tools that a record or a challenge references. |
| Transitions.UnregisterTool | argus/crates/argus-kernel/src/transitions.rs:39-72 | Removes a tool exactly when nothing references it; refusals change nothing. |
| Transitions.ScanIsParent | argus/crates/argus-kernel/src/transitions.rs:92-102 | The latched scan finds exactly the agents that some edge names as parent. |
| Transitions.EdgesAvoiding | argus/crates/argus-kernel/src/transitions.rs:109-119 | The rebuild keeps exactly the edges that do not touch the agent. |
| Transitions.Delegate | argus/crates/argus-kernel/src/transitions.rs:77-129 | Guards in order, then a fresh compartment and one edge for the grantee; refusals change nothing. |
| Transitions.GrantCapability | argus/crates/argus-kernel/src/transitions.rs:132-156 | Only an active direct child of a holder receives the capability; refusals change nothing. |
| Transitions.GrantCrossing | argus/crates/argus-kernel/src/transitions.rs:160-197 | Only root provisions, and it sets both counters; refusals change nothing. |
| Transitions.Revoke | argus/crates/argus-kernel/src/transitions.rs:202-226 | Destroys an active child’s compartment; refusals change nothing. |
| Transitions.CascadeRevoke | argus/crates/argus-kernel/src/transitions.rs:229-253 | The same for an active child of an inactive parent. |
| Transitions.ClearAgent | argus/crates/argus-kernel/src/transitions.rs:257-266 | Removes the agent from all eight collections that it owns a part of, and touches no consumed history. |
| Transitions.IngestConfHold | argus/crates/argus-kernel/src/transitions.rs:270-291 | The nested latched loops decide whether the level may leave on every channel of every record of the agent. |
| Transitions.IngestClearHold | argus/crates/argus-kernel/src/transitions.rs:295-308 | Decides whether the level clears every record’s clearance. |
| Transitions.IngestIntegHold | argus/crates/argus-kernel/src/transitions.rs:312-329 | Decides whether the level meets every record’s floor, or its inspect floor when vouched. |
| Transitions.IngestHolds | argus/crates/argus-kernel/src/transitions.rs:332-342 | The conjunction of the three holds. |
| Transitions.Ingest | argus/crates/argus-kernel/src/transitions.rs:348-408 | Guards, holds and label release with the computed disposition; refusals change nothing. |
| Transitions.CheckResolution | argus/crates/argus-kernel/src/transitions.rs:436-451 | The four-way outcome of the quarantine rules. |
| Transitions.SettleInvocation | argus/crates/argus-kernel/src/transitions.rs:415-489 | Quarantine or close, demote after a bypassed record, absorb, spend the resolution; refusals change nothing. |
| Transitions.CheckCapability | argus/crates/argus-kernel/src/transitions.rs:499-510 | The scan decides whether every required capability is held. |
| Transitions.CheckClearance | argus/crates/argus-kernel/src/transitions.rs:514-539 | The three clearance checks equal their quantified form. |
| Transitions.CheckFlow | argus/crates/argus-kernel/src/transitions.rs:543-609 | The three flow checks equal their quantified form, on either arm. |
| Transitions.CheckInteg | argus/crates/argus-kernel/src/transitions.rs:613-656 | The three integrity checks equal their quantified form, on either arm. |
| Transitions.EgressNarrows | argus/crates/argus-kernel/src/transitions.rs:659-669 | Decides whether the attested channels are among the declared ones. |
| Transitions.EgressCovers | argus/crates/argus-kernel/src/transitions.rs:672-678 | Decides whether an egress-bearing action attests some channel. |
| Transitions.BeginAdmissible | argus/crates/argus-kernel/src/transitions.rs:681-694 | The short-circuit conjunction is the admissible gate. |
| Transitions.BeginGuards | argus/crates/argus-kernel/src/transitions.rs:713-739 | The first structural guard that fails, in order. |
| Transitions.Judge | argus/crates/argus-kernel/src/transitions.rs:742-820 | The computed verdict, and the most specific failed check for a denial. |
| Transitions.BeginInvocation | argus/crates/argus-kernel/src/transitions.rs:701-834 | Answers and acts as the abstract admission on every arm of verdict and mode; refusals change nothing. |
| Transitions.AuthorizeAdmits | argus/crates/argus-kernel/src/transitions.rs:838-852 | The short-circuit conjunction over the frozen scope. |
| Transitions.AuthorizeInspected | argus/crates/argus-kernel/src/transitions.rs:858-909 | Scope mismatch and reuse refuse without change; otherwise the challenge closes, the attestation is spent and a vouched record appears exactly when admitted. |
| Transitions.EndorsedOk | argus/crates/argus-kernel/src/transitions.rs:917-941 | Positive, fresh, scope-exact evidence with a remaining grant use. |
| Transitions.CrossHolds | argus/crates/argus-kernel/src/transitions.rs:946-978 | The holds for exactly the levels the branch releases. |
| Transitions.CheckBounds | argus/crates/argus-kernel/src/transitions.rs:1026-1053 | The assignment bounds; a non-declassifying one must dominate what the source holds. |
| Transitions.CrossOutput | argus/crates/argus-kernel/src/transitions.rs:985-1113 | Guards, branch, bounds, holds, release and spending as the abstract crossing; refusals change nothing. |
| Transitions.Apply | ex_argus/native/argus_nif/src/command.rs:49-134 | The dispatch does, on the state the vectors represent, what the abstract command with its lists read as sets does. |
| Instances.ApplyToAgreeing | argus/crates/argus-kernel/src/transitions.rs:26-1113 | Kernels that agree as maps and sets, given commands that agree up to order and duplicates in their lists, give one reply and stay equal in projection. |
| Capacity.NestedAlwaysFits | ex_argus/native/argus_nif/src/limits.rs:239-257 | The bounds on nested sets hold of every state, by pigeonhole on the vocabularies. |
| Capacity.ProfileIs | ex_argus/native/argus_nif/src/limits.rs:5-20 | The profile in numbers: a state is within it exactly if twelve sizes and the text cost are within their limits. |
| Capacity.RetainedTextsAreSmall | ex_argus/native/argus_nif/src/limits.rs:57-61 | A state within the text budget retains no text over 1,024 bytes. |
| Capacity.StepFits | ex_argus/native/argus_nif/src/limits.rs:298-450 | An accepted command grows no collection and no text beyond what the preflight reserved for it. |
| Capacity.PreflightSound | ex_argus/native/argus_nif/src/limits.rs:506-514 | If the preflight passes and the command is accepted, the next state meets all collection bounds, nested bounds, the text size bound and the text budget. |
| Capacity.InitialFits | ex_argus/native/argus_nif/src/limits.rs:226-264 | The initial state is within the profile. |
| Capacity.CrossConfRoom | ex_argus/native/argus_nif/src/limits.rs:469-482 | The room check of a crossing for confidentiality, which counts at least one new level, passes exactly when the receiver holds fewer than all four levels. |
| Capacity.CrossIntegRoom | ex_argus/native/argus_nif/src/limits.rs:483-496 | The same for integrity. |
| Capacity.ReleaseFits | ex_argus/native/argus_nif/src/limits.rs:341-388 | Releasing labels and demoting adds at most the two label keys. |
| Capacity.ClearSheds | ex_argus/native/argus_nif/src/limits.rs:308-308 | Clearing an agent grows no collection and no text. |
| Reservations.PreflightExact | ex_argus/native/argus_nif/src/limits.rs:298-514 | Of a command that the kernel accepts, in a state within the profile and with sequence left, the preflight passes exactly those whose next state is within the profile and whose idle reservations fit too; what is idle is a condition on the state before the command, per command, and nothing for seven of the twelve. |
| Reservations.PreflightTight | ex_argus/native/argus_nif/src/limits.rs:298-388 | RegisterTool, UnregisterTool, Revoke, CascadeRevoke, Delegate, GrantCapability and Ingest are refused for capacity exactly when their next state would leave the profile. |
| Reservations.RegrantFits | ex_argus/native/argus_nif/src/limits.rs:336-340 | A new balance for a bound key never leaves the profile, whatever its reservation. |
| Reservations.CrossShapeExact | ex_argus/native/argus_nif/src/limits.rs:452-490 | When the next state has room, the room checks of a crossing pass exactly when its receiver is full in neither dimension and no unused evidence lacks a slot. |
| Reservations.LabelKeysAlwaysFit | ex_argus/native/argus_nif/src/limits.rs:426-440 | Under the invariant an active agent always has room for its label keys. |
| Excesses.RegrantShapeExcess | ex_argus/native/argus_nif/src/limits.rs:336-340 | After 16,384 grants a new balance for a bound key is refused, although it would change no size. |
| Excesses.RegrantTextExcess | ex_argus/native/argus_nif/src/limits.rs:336-340 | With little text left a new balance for a bound key is refused, although it would add no text. |
| Excesses.BeginChallengeExcess | ex_argus/native/argus_nif/src/limits.rs:389-405 | With all challenges open an invocation that is allowed is refused. |
| Excesses.BeginRecordExcess | ex_argus/native/argus_nif/src/limits.rs:389-405 | With all records pending an invocation that would open a challenge is refused. |
| Excesses.BeginTextExcess | ex_argus/native/argus_nif/src/limits.rs:389-405 | With little text left an allowed invocation is refused for the text of a challenge. |
| Excesses.AuthorizeRecordExcess | ex_argus/native/argus_nif/src/limits.rs:406-425 | With all records pending a negative verdict on a challenge is refused. |
| Excesses.AuthorizeTextExcess | ex_argus/native/argus_nif/src/limits.rs:406-425 | With little text left a negative verdict is refused for the text of the record it does not leave. |
| Excesses.SettleTextExcess | ex_argus/native/argus_nif/src/limits.rs:426-447 | With little text left a settlement is refused for two label keys, although the record it frees makes room. |
| Excesses.CrossConfExcess | ex_argus/native/argus_nif/src/limits.rs:469-482 | A crossing that releases nothing is refused because its receiver holds every confidentiality level. |
| Excesses.CrossIntegExcess | ex_argus/native/argus_nif/src/limits.rs:483-496 | The same for integrity. |
| Excesses.CrossEvidenceExcess | ex_argus/native/argus_nif/src/limits.rs:457-464 | With every attestation spent a crossing whose evidence is negative is refused for the slot it would not use. |
| Excesses.CrossTextExcess | ex_argus/native/argus_nif/src/limits.rs:497-503 | With little text left a crossing that binds no label key is refused for two of them. |
| Releases.LiveAcceptsExactly | ex_argus/native/argus_nif/src/instance.rs:157-166 | A live instance with sequence left accepts exactly those of its kernel’s commands whose next state fits and whose idle reservations do. |
| Releases.ReleaseIsNeverBlocked | ex_argus/native/argus_nif/src/limits.rs:308-308 | In every live instance with sequence left a revocation, cascading or not, and an unregistration succeed exactly when the kernel accepts them. |
| Releases.AgentsCanBeRevoked | ex_argus/native/argus_nif/src/limits.rs:308-308 | In every live instance with sequence left every active agent but root can be revoked, by its parent or by cascade, and is destroyed with its records and challenges. |
| Releases.InFlightCanBeSettled | ex_argus/native/argus_nif/src/instance.rs:157-169 | The kernel of every live instance accepts a settlement of each in-flight invocation, with success or with failure, given fresh evidence if it is quarantined; such evidence always exists, and the record is gone afterwards. |
| Releases.SettlementIsBlockedExactly | ex_argus/native/argus_nif/src/limits.rs:426-447 | In every live instance with sequence left a settlement that the kernel accepts is blocked exactly when it needs evidence and the attestations are all spent, or when the text budget lacks two keys of the owner and the evidence. |
| Releases.LiveDrains | ex_argus/native/argus_nif/src/instance.rs:89-94 | From every live instance with enough sequence left a list of revocations and unregistrations is accepted one after another and leaves root alone, with no record, challenge or tool. |
| Limits.CheckedCapacity | ex_argus/native/argus_nif/src/limits.rs:27-36 | Succeeds exactly when the sum fits the maximum; the machine-word overflow guard never decides alone. |
| Limits.TextBudget.Add | ex_argus/native/argus_nif/src/limits.rs:57-61 | Accepts exactly the small texts that fit the remaining budget, and counts them. |
| Limits.TextBudget.AddEach | ex_argus/native/argus_nif/src/limits.rs:172-224 | Adds texts until the first that does not fit; passes exactly when all fit. |
| Limits.RetainedCostIs | ex_argus/native/argus_nif/src/limits.rs:172-224 | What the vectors cost is what the represented state costs. |
| Limits.RetainedText | ex_argus/native/argus_nif/src/limits.rs:172-224 | Passes exactly when all retained text fits, and then holds its total. |
| Limits.CheckStateShape | ex_argus/native/argus_nif/src/limits.rs:226-259 | Passes exactly when all twelve collections and the nested sets are within bounds. |
| Limits.CheckState | ex_argus/native/argus_nif/src/limits.rs:266-268 | Passes exactly of the states within the profile. |
| Limits.CheckRecoveryLink | ex_argus/native/argus_nif/src/limits.rs:270-277 | The state is checked before the sequence. |
| Limits.CheckCommand | ex_argus/native/argus_nif/src/limits.rs:100-170 | Passes exactly when every text is small and no list exceeds its vocabulary. |
| Limits.CountMissing | ex_argus/native/argus_nif/src/limits.rs:471-477 | The filter counts exactly the members the other set lacks. |
| Limits.CheckPostTransition | ex_argus/native/argus_nif/src/limits.rs:298-450 | Passes exactly when there is room and budget for what the command may add. |
| Limits.CheckCrossShape | ex_argus/native/argus_nif/src/limits.rs:452-496 | The crossing’s room checks, with the at-least-one rule. |
| Limits.Preflight | ex_argus/native/argus_nif/src/limits.rs:506-514 | A spent sequence is reported first; otherwise passes exactly when state, command and growth fit. |
| Encoding.BigEndianRoundTrip | ex_argus/native/argus_nif/src/chain.rs:57-63 | A fixed-width big-endian number reads back. |
| Encoding.NormalizeTags | ex_argus/native/argus_nif/src/chain.rs:77-82 | Sorting in place and dropping repeated neighbours yields the one ascending list of the set of tags. |
| Encoding.Decodable | ex_argus/native/argus_nif/src/chain.rs:65-82 | Two token lists of one shape whose encodings agree, whatever follows, are equal and followed by the same bytes. |
| Chain.LinkInjective | ex_argus/native/argus_nif/src/chain.rs:367-380 | Equal link transcripts force equal predecessor, sequence, action and command with its lists read as sets, and conversely, for texts under 2^32 bytes. |
| Chain.LongTextsCollide | ex_argus/native/argus_nif/src/chain.rs:65-68 | A text of 2^32 bytes is where it ends: two different delegations then share a link transcript, because the length is truncated. |
| History.ListsAreForgotten | ex_argus/native/argus_nif/src/chain.rs:77-82 | Two admissions whose capability lists hold the same members share a link transcript, although as commands they differ. |
| Chain.GenesisInjective | ex_argus/native/argus_nif/src/chain.rs:360-365 | Equal genesis transcripts force equal mode and ceilings, and conversely. |
| Chain.GenesisIsNoLink | ex_argus/native/argus_nif/src/chain.rs:20-21 | No genesis transcript is a link transcript. |
| Chain.CommandEqual | ex_argus/native/argus_nif/src/chain.rs:191-296 | The canonical fields of a command determine it up to order and duplicates in its lists. |
| Chain.ActionEqual | ex_argus/native/argus_nif/src/chain.rs:298-338 | The canonical fields of an action determine it. |
| Chain.CapTagsInjective | ex_argus/native/argus_nif/src/chain.rs:133-149 | The canonical list of a capability set determines the set. |
| Wire.LinkIs | ex_argus/native/argus_nif/src/chain.rs:367-380 | The bytes of every link transcript, written out: domain, version 5, predecessor, sequence, and the tagged fields of command and action. |
| Wire.GenesisIs | ex_argus/native/argus_nif/src/chain.rs:360-365 | The bytes of every genesis transcript, written out: domain, version 5, root, mode and ceilings. |
| Wire.PinnedLink | ex_argus/native/argus_nif/src/chain.rs:449-474 | The settlement transcript that the implementation pins, byte by byte. |
| Wire.PinnedGenesis | ex_argus/native/argus_nif/src/chain.rs:435-442 | The genesis transcript that the implementation pins, byte by byte. |
| Wire.TagsEnumerate | ex_argus/native/argus_nif/src/chain.rs:150-171 | Every tag is the position of its value in its vocabulary. |
| Wire.LevelTagsEnumerate | ex_argus/native/argus_nif/src/chain.rs:115-132 | The same for levels, channels and Booleans. |
| Transcripts.Transcript.WriteText | ex_argus/native/argus_nif/src/chain.rs:65-68 | Appends the 32-bit length and the bytes. |
| Transcripts.Transcript.WriteList | ex_argus/native/argus_nif/src/chain.rs:70-75 | Appends the length and the tags one by one. |
| Transcripts.Transcript.WriteCaps | ex_argus/native/argus_nif/src/chain.rs:77-82 | Appends the canonical list of the set, whatever the order and duplicates of the given list. |
| Transcripts.Transcript.WritePolicy | ex_argus/native/argus_nif/src/chain.rs:240-252 | Appends the policy’s fields in canonical order. |
| Transcripts.Transcript.WriteCommand | ex_argus/native/argus_nif/src/chain.rs:278-296 | Appends the tag and fields of the command. |
| Transcripts.Transcript.WriteAction | ex_argus/native/argus_nif/src/chain.rs:320-338 | Appends the tag and fields of the action. |
| Transcripts.Transcript.WriteGenesis | ex_argus/native/argus_nif/src/chain.rs:360-365 | Appends domain, version, root, mode and the eight optional ceilings. |
| Transcripts.Transcript.WriteLink | ex_argus/native/argus_nif/src/chain.rs:367-380 | Appends domain, version, predecessor, sequence, command and action. |
| Transcripts.Genesis | ex_argus/native/argus_nif/src/chain.rs:388-392 | The digest of the genesis transcript. |
| Transcripts.Link | ex_argus/native/argus_nif/src/chain.rs:405-409 | The digest of the link transcript. |
| HashChains.HeadDetermines | ex_argus/native/argus_nif/src/instance.rs:157-188 | Two hash chains of any lengths with one head are the same chain, or they hashed two different transcripts to one digest. |
| History.LiveReplays | ex_argus/native/argus_nif/src/instance.rs:89-149 | Everything a live instance emitted is accepted by recovery, link by link, and leads to the same kernel, sequence and head. |
| History.RecoveryIsLive | ex_argus/native/argus_nif/src/instance.rs:106-149 | Whatever recovery accepted, out of any offered links, is exactly what a live instance emits for those commands, with the same state. |
| History.ReplayIsApply | ex_argus/native/argus_nif/src/instance.rs:106-136 | A recorded link is accepted exactly when it is, in every part, the envelope the command would produce live. |
| History.PrefixFinalizes | ex_argus/native/argus_nif/src/instance.rs:138-149 | Every prefix of a live history recovers the instance that had emitted it and finalizes at its own anchor and at no other. |
| History.LiveFits | ex_argus/native/argus_nif/src/instance.rs:83-87 | No reachable live instance leaves the capacity profile, so its state can always be observed. |
| History.RecoveryFits | ex_argus/native/argus_nif/src/instance.rs:106-136 | Nor does any recovery. |
| History.LiveIsARun | ex_argus/native/argus_nif/src/instance.rs:157-188 | The kernel of a live instance is the kernel run over its accepted commands. |
| History.RecoveredInstanceIsSafe | ex_argus/native/argus_nif/src/instance.rs:138-149 | Every recovered kernel satisfies the reachable-state invariant. |
| History.LiveIsChained | ex_argus/native/argus_nif/src/instance.rs:157-188 | Every live history is a hash chain from its genesis transcript to its head, with short texts throughout. |
| History.AnchorDeterminesHistory | ex_argus/native/argus_nif/src/instance.rs:157-188 | One head determines mode, ceilings and every accepted link of two histories of any lengths, up to order and duplicates in lists, unless two transcripts that were really hashed collide. |
| History.AnchoredRecovery | ex_argus/native/argus_nif/src/instance.rs:138-149 | A recovery that finalizes at a live instance’s anchor has rebuilt that instance, whatever links it was offered, unless two hashed transcripts collide. |
| Instances.ApplyWithoutCommit | ex_argus/native/argus_nif/src/instance.rs:157-188 | Computes the envelope and the next state on a clone; the current state is only read. |
| Instances.LiveInstance.Apply | ex_argus/native/argus_nif/src/instance.rs:89-94 | Commits exactly the computed state of an accepted command; a refusal leaves the instance untouched. |
| Instances.LiveInstance.Status | ex_argus/native/argus_nif/src/instance.rs:74-81 | Reports version, sequence and head. |
| Instances.LiveInstance.Observe | ex_argus/native/argus_nif/src/instance.rs:83-87 | Yields the sorted projection, and refuses exactly outside the profile. |
| Instances.RecoveryInstance.Replay | ex_argus/native/argus_nif/src/instance.rs:106-136 | Advances exactly as the abstract replay; every refusal, in its order, leaves the slot untouched. |
| Instances.RecoveryInstance.Finalize | ex_argus/native/argus_nif/src/instance.rs:138-149 | Moves the state into a live instance exactly at its own anchor and consumes the recovery; otherwise changes nothing. |
| Instances.RunLive | ex_argus/native/argus_nif/src/instance.rs:89-94 | A whole session reaches the abstract state, emits the abstract envelopes and ends observable. |
| Instances.RunRecovery | ex_argus/native/argus_nif/src/instance.rs:106-136 | A whole recovery reaches the abstract state and accepts the abstract links. |
| Instances.RoundTrip | ex_argus/native/argus_nif/src/instance.rs:106-149 | Replaying a session’s envelopes and finalizing at its status always yields an instance with the same kernel, sequence and head. |
| Sorting.SortInPlace | ex_argus/native/argus_nif/src/state.rs:268-274 | Sorts by the key and permutes, nothing else. |
| Sorting.AscendingIsUnique | ex_argus/native/argus_nif/src/state.rs:268-274 | A set has only one ascending list. |
| Sorting.LexCompares | ex_argus/native/argus_nif/src/state.rs:268-274 | One text sorts before another exactly if it is a proper prefix of it, or has the smaller byte where they first differ. |
| Sorting.LexOrder | ex_argus/native/argus_nif/src/state.rs:268-270 | Byte-wise comparison of texts is a strict total order. |
| Sorting.KeyOrder | ex_argus/native/argus_nif/src/state.rs:171-177 | The composite key order is a strict total order. |
| Projections.FromKernel | ex_argus/native/argus_nif/src/state.rs:67-200 | Builds the projection that lists the represented state in canonical order, nested sets included. |
| Projections.ProjectionShows | ex_argus/native/argus_nif/src/state.rs:67-200 | A projection shows each component of the state in its own place, and nothing else there. |
| Projections.ProjectionsAgree | ex_argus/native/argus_nif/src/state.rs:67-200 | Two projections are equal exactly when the states they list agree as maps and sets. |
| Projections.ProjectRecords | ex_argus/native/argus_nif/src/state.rs:231-248 | Lists the records by id with their nested sets sorted. |
| Projections.SortLevels | ex_argus/native/argus_nif/src/state.rs:82-121 | Lists keys in order, each with its set in tag order. |

## Left out

- SHA-256 itself: the digest is a parameter of every instance.
- Resource handles, term encoding and decoding, lock contention and poisoning: each instance method is
  one atomic step.
- The Elixir layer, including its 64 MiB content budget for a replay list: the round trip is stated at
  the native instance.
- The event store driver and the authorizer oracle: `authorized` is an input of a command.
- Conversions between wire and kernel records: one record type serves for both, and collecting a list
  into a set is where duplicates go.
- The background builder: a background is a value with two optional ceilings per egress kind.
- Collection methods that no transition reaches (union into a key, removal from a key, any-value scan)
  and the unused contained-only label scan.
- The collections inside the kernel state are sequences in its fields, and one operation on a stored
  collection runs on a vector object borrowed for that call; sharing one vector object between two
  fields is not expressed, and the source has no such sharing.
- Limits.CheckPostTransition: runs all room checks of a command before its text checks where the source
  interleaves them; both kinds refuse with the same error.
- The text checks of a command run over the list of its texts; their order among themselves is not
  observable, since all of them refuse with the same error.
- The excess witnesses are runs of the kernel; that a live instance reaches each of them is not stated.
- Performance, memory and the number of copies made.
