# CrowDB models and proofs

Dafny models of the protocols in CrowDB that decide whether data, resources or results can be lost, with proofs of what
those protocols keep over every run. `dafny verify dfyconfig.toml` checks the whole project.

## What is modelled

**Consensus** (`Consensus`, `ConsensusSafety`, `ConsensusElections`, `ConsensusSmallGroups`,
`ConsensusSingleVoter`, `ConsensusLeaderWrites`, `Acceptor`, `ConsensusOverlap`; runs are built in `ConsensusRuns` and `ConsensusOverlapRuns`). One replication group:
per-slot Paxos with Raft-style elections and optional pre-votes, as a state machine. The network may drop, delay, duplicate
and reorder everything. What a task reads before it waits, it acts on afterwards without looking again, as the code does:
an election task fixes its term, waits for pre-votes, overwrites term and vote, waits for the disk, polls in whatever term
it is in by then, and counts late; a proposal admitted while its replica led takes slot and term later. The main results:

- with classic proposals no slot of any reachable state ever has two chosen values, whoever proposes and however elections
  go (`ClassicGroupsAgree`);
- with the default leader writes this is false. Leader writes skip Phase 1 and always carry round 0 and the leader's id, so
  a leftover entry of an old leader with a higher id outranks a newer chosen value, and recovery adopts the leftover:
  `LeaderWritesLoseAChosenValue` builds such a run for every group of three or more voters, and an orderly one, in which
  only leaders propose and no task acts on what it read before waiting. Over orderly runs a group agrees exactly when
  `force_classic` is set or it has at most two voters (`OrderlyAgreementIffClassicOrSmall`). Over all runs a proposal that
  outlives its leadership breaks groups of two as well (`FormerLeaderWrites`), and a group agrees exactly when
  `force_classic` is set or it has at most one voter (`AgreementIffClassicOrSingle`). Section 9.2 of `doc/design/kv/design-crowdb-kv-leader-election.md` claims agreement in
  both modes; the model follows the code;
- section 9.1 of that document claims one leader per term and one vote per replica and term. `OneLeaderPerTerm` proves it
  over every run in which a replica does not move on while its election task waits, which is what the guards missing in
  `become_candidate` and `finalize_leader` would check. Without them it is false: a late count makes a second leader of a
  newer term (`LateCountMakesTwoLeaders`), a stale plan votes twice (`StalePlanVotesTwice`), and with or without pre-votes
  a term never has two leaders exactly in groups of at most one voter (`OneLeaderIffSingleVoter`). Vote lockouts and leases
  are timers; in the model they may have run out at any moment;
- the group model takes each acceptor handler as one atomic step. `PxAcceptor` proves that a handler that has the slot to
  itself is that step. The Rust handlers share two atomic cells per slot and take no lock, so `Acceptor` and
  `ConsensusOverlap` also take every load and compare-and-swap as a step. Promises report every older entry that is ever
  accepted exactly when the handlers of one slot never overlap (`ContractIffSerialized`), and a group that always runs
  Phase 1 agrees in all its runs exactly under the same condition (`ClassicAgreementIffSerial`).

**Resource dispatch** (`ResourceDispatch`, `ResourceScheduler`). The ordered batch packer, with feasibility and minimality
of the number of batches against every other contiguous split, and the first-in-first-out scheduler, with conservation,
limits, order and termination for any completion order. Costs and budgets are exact reals, a budget may be infinite.
Minimality needs non-negative costs, the budget bound non-negative costs and budgets.

**Host data deletion** (`HostData`). The recursive walk that runs once dry and once for real over a tree of paths, entries
scanned in any order. Every state a crash can leave is part of the method contracts. The tree changes only through the walk.

**Local Docker clusters** (`DockerLocal`, `DockerGarbage`, `ReceiptSeal`). Receipts are sealed before the first effect and
retired after the last. Docker calls may fail before or after their effect; a crash may cut a command anywhere; other
clients may interfere between any two calls of a default clean. Labels are immutable, and non-force removals refuse what is
running, attached or referenced.

**Fixtures and batches** (`Fixture`, `BrowserBatch`). Record-before-create, teardown, the reported status and its file, and
the order of entries, clients and exits in a batch.

**Datasets** (`Dataset`). Ownership of indices by workers, and the cursor protocol over interrupted and resumed sessions.
Windows are immutable: the server is a function from cursors to windows.

**Retained media, locks and export** (`RetainedStorage`, `LockMatch`, `Publish`). A history of launches, a comparison of two
dependency locks, and a bounded export.

Properties that turned out false of the code are stated with their exact condition: agreement under leader writes
(`AgreementIffClassicOrSingle`), one leader per term (`OneLeaderIffSingleVoter`), agreement with overlapping handlers
(`ClassicAgreementIffSerial`), a marker that is itself protected media is deleted (`RemovalSparesProtected`), a session
resumed with the null cursor starts over (`NullCursorStartsOver`), closing a cluster that was closed before leaves later
resources alone (`Close`, `RunCase`), a failing timing file leaves the status in memory at `pass` while leaving raises
(`Exit`), and a log next to its compressed copy is overwritten in the export (`NamesAreSafeIffPathsDiffer`,
`CompressedNeighboursClash`, `EqualNeighboursMayBeCut`).

## Model

| member | source | states |
|---|---|---|
| ConsensusSafety.ClassicGroupsAgree | doc/design/kv/design-crowdb-kv-leader-election.md:332-338 | in every state of every run of every group that always prepares, no slot has two chosen values, also when former leaders go on proposing |
| ConsensusSafety.StepKeepsInv | lib/crowdb-kv/src/cluster/group_prepare.rs:73-353 | every enabled step, of a present or former leader, an acceptor or an election and in both modes, keeps the five-part invariant |
| ConsensusSafety.InvImpliesAgreement | lib/crowdb-kv/src/cluster/group.rs:905-912 | under the invariant, two chosen values at one slot can only come from two accepted leader writes |
| ConsensusSafety.ChosenValueIsKept | lib/crowdb-kv/src/cluster/group_election/recovery.rs:17-112 | once a value is chosen at a slot, whatever is accepted there at the same or a higher ballot is that value, provided accepted leader writes coincide |
| ConsensusSafety.ReportSeesChosen | lib/crowdb-kv/src/cluster/group_inflight.rs:173-227 | the promises folded by a later attempt include the report of an entry at least as new as the chosen one |
| ConsensusSafety.SettledBallotsAreUnique | lib/crowdb-kv/src/cluster/group_prepare.rs:73-353 | two attempts settled after a first phase at one slot with one ballot are the same attempt |
| ConsensusSafety.PromiseKeepsInv | lib/crowdb-kv/src/paxos/acceptor.rs:168-193 | a promise keeps the invariant: it covers its ballot, is the only one at that ballot and reports the newest entry |
| ConsensusSafety.AcceptKeepsInv | lib/crowdb-kv/src/paxos/acceptor.rs:196-225 | an accepted entry keeps the invariant: it is the newest at its slot and below no promise given before |
| ConsensusElections.OneLeaderIffSingleVoter | lib/crowdb-kv/src/cluster/group_election_candidate.rs:27-57 | for every group, with or without pre-votes, no reachable state has two leaders of one term if and only if there is at most one voter |
| ConsensusElections.LateCountMakesTwoLeaders | lib/crowdb-kv/src/cluster/group_election_leader.rs:50-91 | any two voters can both lead one term: votes counted after a newer term was adopted make a leader of that term |
| ConsensusElections.StalePlanVotesTwice | lib/crowdb-kv/src/cluster/local_replica_election.rs:64-85 | standing in a term fixed before waiting overwrites the vote cast meanwhile, and both candidates count it |
| ConsensusElections.OneLeaderPerTerm | doc/design/kv/design-crowdb-kv-leader-election.md:321-330 | over every run in which no replica moves on while its election task waits, two leaders of one term, even at different times, are the same replica |
| ConsensusElections.VoteKeepsInv | lib/crowdb-kv/src/cluster/local_replica_election.rs:164-220 | undisturbed standing and polling, and granting in any state, keep: one vote per voter and term, votes bind, leaders are elected |
| ConsensusElections.WinKeepsInv | lib/crowdb-kv/src/cluster/group_election_leader.rs:50-91 | counting a majority while still in the polled term keeps the same |
| ConsensusElections.OtherKeepsInv | lib/crowdb-kv/src/cluster/local_replica_election.rs:24-43 | every other step, including planning, pre-votes, step-down, restart and term adoption, keeps the same |
| ConsensusLeaderWrites.AgreementIffClassicOrSingle | lib/crowdb-kv/src/cluster/group_propose.rs:184-306 | for every group, all reachable states agree if and only if proposals are forced to prepare or there is at most one voter |
| ConsensusLeaderWrites.FormerLeaderWrites | lib/crowdb-kv/src/cluster/group_propose.rs:184-233 | in every group of two or more voters, a write admitted before a step-down and a write of the successor are both chosen at one slot |
| ConsensusLeaderWrites.LeaderWritesLoseAChosenValue | lib/crowdb-kv/src/cluster/group.rs:896-903 | every group of three or more voters with leader writes has an orderly run that ends with two values chosen at one slot, because recovery adopts a leftover |
| ConsensusLeaderWrites.OrderlyAgreementIffClassicOrSmall | lib/crowdb-kv/src/cluster/group_propose.rs:231-306 | for every group, all states of orderly runs agree if and only if proposals are forced to prepare or there are at most two voters |
| ConsensusSmallGroups.SmallGroupsAgree | lib/crowdb-kv/src/cluster/group_election_leader.rs:50-91 | with at most two voters every state of an orderly run agrees, in both modes of proposing |
| ConsensusSmallGroups.SmallWritesCoincide | lib/crowdb-kv/src/cluster/group.rs:896-903 | when every voter elects every leader, the leader writes accepted anywhere at one slot are one and the same |
| ConsensusSmallGroups.StepKeepsSmallInv | lib/crowdb-kv/src/cluster/group_election_leader.rs:61-70 | every orderly step keeps: a new leader starts above every slot its voters had accepted, votes report those slots, a leader writes once per slot |
| ConsensusSingleVoter.SingleVoterAgrees | lib/crowdb-kv/src/cluster/group_election_candidate.rs:200-212 | with at most one voter every reachable state agrees, in both modes of proposing |
| ConsensusSingleVoter.StepKeepsSingleInv | lib/crowdb-kv/src/cluster/group_election_leader.rs:61-70 | every step keeps: terms never fall back, slots of live writes are taken, and of two writes at one slot the earlier is fenced |
| ConsensusOverlapRuns.ClassicAgreementIffSerial | lib/crowdb-kv/src/paxos/acceptor.rs:168-225 | a group that always prepares agrees in all runs of single loads and swaps if and only if handlers of one slot of one replica never overlap |
| ConsensusOverlapRuns.OverlapBreaksAgreement | lib/crowdb-kv/src/paxos/acceptor.rs:202-224 | in every group with a voter, accept handlers that checked before a higher promise write below it everywhere, and two values are chosen |
| ConsensusOverlap.SerialHandlersAgree | lib/crowdb-kv/src/paxos/acceptor.rs:168-225 | while handlers of a slot never overlap, every state between two of their steps agrees |
| ConsensusOverlap.SoloStepKeepsInv | lib/crowdb-kv/src/paxos/acceptor.rs:177-224 | each load or swap of a handler that has its slot to itself keeps the group's invariant |
| Acceptor.PxAcceptor.Prepare | lib/crowdb-kv/src/paxos/acceptor.rs:168-193 | alone on its slot: promises exactly strictly higher ballots and reports the accepted entry, rejects with the current promise, refuses trimmed slots, opens the slot and raises the ceiling, touches no other slot |
| Acceptor.PxAcceptor.InnerAccept | lib/crowdb-kv/src/paxos/acceptor.rs:196-225 | alone on its slot: accepts exactly ballots not below the promise, raises the promise, stores the entry, otherwise rejects with the promise and changes nothing else |
| Acceptor.ContractIffSerialized | lib/crowdb-kv/src/paxos/acceptor.rs:168-225 | every promise reports an entry at least as new as every older entry ever accepted, in all interleavings of atomic loads and swaps, if and only if at most one handler of the slot is in flight |
| Acceptor.OverlapBreaksTheContract | lib/crowdb-kv/src/paxos/acceptor.rs:202-224 | an accept that checked the promise before a higher promise was made still writes below it, and the promise did not report it |
| Acceptor.SerialRunKeepsInv | lib/crowdb-kv/src/paxos/acceptor.rs:9-11 | with at most one handler in flight, every interleaving keeps promises and accepted ballots bounded and reports complete |
| Acceptor.ReplyFold.Fold | lib/crowdb-kv/src/cluster/group_inflight.rs:138-227 | after any answers, the count is the number of voters that promised, the adopted entry is the newest reported by anyone, and the round and term are the highest rejected |
| Acceptor.ReplyFold.Proceeds | lib/crowdb-kv/src/cluster/group.rs:973-977 | the count reaches the cached quorum exactly for a majority of voters, and the fold meets the adoption rule of the group model over all promises folded |
| Acceptor.NewestExtends | lib/crowdb-kv/src/cluster/group.rs:905-912 | replacing the adopted entry only by a higher ballot keeps it the newest of all reports |
| ResourceDispatch.ResourceBatches | e2e-test/resource_dispatch.py:45-60 | accepts exactly dispatchable cases; non-empty feasible batches that concatenate to the input; no feasible contiguous split has fewer |
| ResourceDispatch.ClosingStaysAhead | e2e-test/resource_dispatch.py:52-58 | closing a batch only when the next case does not fit keeps the packer ahead of every equally long feasible split |
| ResourceDispatch.PackedIsMinimal | e2e-test/resource_dispatch.py:45-60 | a packer that is ahead before its last batch has used the fewest batches |
| ResourceScheduler.RunWithResources | e2e-test/resource_dispatch.py:10-42 | terminates; rejects exactly undispatchable jobs; every intermediate snapshot is safe; ends idle with one error per failed case; without a stop every case was submitted, in order |
| ResourceScheduler.StepIsSafe | e2e-test/resource_dispatch.py:15-36 | each submission and each completion, in any order, keeps use equal to the sum of active costs, slots and budget respected, submitted plus pending equal to the input and errors equal to the failures |
| ResourceScheduler.Admit | e2e-test/resource_dispatch.py:20-28 | admits from the head while it fits; leaves nothing running with cases pending only after a stop |
| ResourceScheduler.Collect | e2e-test/resource_dispatch.py:29-36 | takes any non-empty set of completions and strictly reduces pending plus active |
| ResourceScheduler.IdleUsesNothing | e2e-test/resource_dispatch.py:16-28 | with nothing active the accounted use is zero, so the head fits |
| HostData.Host.Walk | container/oci-image/host_data_cleanup.py:81-108 | dry and removing walks fail on exactly the same trees; the dry walk changes nothing; the removing walk leaves exactly what is kept; the answer says whether anything is removable; every tree in between is partly pruned |
| HostData.Host.Visit | container/oci-image/host_data_cleanup.py:85-107 | the same for one entry and what lies below it, and no directory removal meets a non-empty directory |
| HostData.Host.Validate | container/oci-image/host_data_cleanup.py:62-79 | changes nothing and accepts exactly trees without blocked entries whose marker names the accepted media, or without marker and without removable entries |
| HostData.Host.RemoveData | container/oci-image/host_data_cleanup.py:114-123 | succeeds exactly when validation does and then leaves the cleaned tree; after every deletion a fresh plan validates and leads to the same tree |
| HostData.Host.Remove | container/oci-image/host_data_cleanup.py:110-132 | succeeds exactly on a ready host that did not appear or vanish meanwhile; otherwise changes nothing; every durable state before the receipt goes is retryable to the same final tree |
| HostData.SurvivorsOfWalk | container/oci-image/host_data_cleanup.py:81-108 | an entry survives the removing walk if and only if it is at or under protected media, is a directory leading to some, or is the marker |
| HostData.RemovalSparesProtected | container/oci-image/host_data_cleanup.py:116-120 | a removal spares all protected entries if and only if the marker is not itself a present protected entry |
| HostData.PartlyPrunedIsReady | container/oci-image/host_data_cleanup.py:62-79 | a crash between deletions leaves a tree that validates again and whose cleanup ends the same |
| HostData.EmptiedDirectory | container/oci-image/host_data_cleanup.py:95-101 | after its contents were walked, a directory that leads to nothing protected is empty |
| HostData.RootIsEmpty | container/oci-image/host_data_cleanup.py:117-123 | once the marker is gone, a root that leads to nothing protected is empty |
| DockerLocal.OwnershipOverEveryHistory | container/oci-image/docker_local_launch.py:34-61 | over every chain of effects cut anywhere, each labelled resource answers to a sealed receipt of its owner that names it |
| DockerLocal.EffectKeepsInv | container/oci-image/docker_local_cleanup.py:39-67 | each single durable effect keeps that invariant |
| DockerLocal.ListingIsComplete | container/oci-image/docker_local_state.py:40-44 | listing by labels and names finds every resource that carries the owner's labels |
| DockerLocal.Operator.Accept | container/oci-image/docker_local_launch.py:34-61 | adopts an agreeing receipt unchanged, or seals the request with its defaults under the new owner; a refusal changes nothing; no other receipt, binding or resource changes |
| DockerLocal.Operator.Ensure | container/oci-image/docker_local_launch.py:22-31 | creates a missing resource with the owner's labels, accepts only an owned existing one |
| DockerLocal.Operator.Run | container/oci-image/docker_local_launch.py:85-117 | success means every node of the receipt is up as sealed; failure, also of a container created but not started, keeps the receipt; other owners are untouched |
| DockerLocal.Operator.Stop | container/oci-image/docker_local_cleanup.py:31-36 | success means no owned container is running; nothing is created, removed or unsealed |
| DockerLocal.Operator.Clean | container/oci-image/docker_local_cleanup.py:39-67 | success removes containers and networks, with data also volumes, binding and receipt; any failure keeps the receipt; kept data keeps receipt, binding and volumes; other owners are untouched |
| DockerLocal.NothingLeftToRetire | container/oci-image/docker_local_cleanup.py:56-65 | when nothing owned and no binding is left, retiring the receipt orphans nothing |
| DockerGarbage.Daemon.DefaultClean | container/oci-image/clean.py:48-94 | whatever other clients do between calls, nothing of a cluster seen running is removed and no running container; what is removed belongs to a cluster seen stopped or is collected and carries no retained host's label; with kept data no volume goes and nothing of any receipt is collected |
| DockerGarbage.Daemon.Collect | container/oci-image/docker_garbage.py:11-59 | removes nothing that a retained receipt names or owns, no container, network or volume inspected with a retained host's label, and no running container |
| DockerGarbage.Daemon.CleanStopped | container/oci-image/docker_local_cleanup.py:39-61 | cleaning a cluster seen stopped removes only resources with its labels, nothing of any other cluster, and refuses what runs again |
| DockerGarbage.Daemon.Select | container/oci-image/clean.py:48-57 | each record seen running is retained, and retained and stopped records are of different clusters |
| DockerGarbage.VolumesDiffer | container/oci-image/docker_local_state.py:116-121 | two clusters never share a data volume name |
| ReceiptSeal.NormalReturnIsFinal | container/oci-image/docker_local_state.py:93-113 | a seal that returns normally has its own record stored from then on, every other normal return proposed the same record, and later adoption returns it or rejects |
| ReceiptSeal.ReceiptIsPermanent | container/oci-image/docker_local_state.py:93-113 | in every interleaving with crashes, a receipt is one complete record and is never replaced |
| ReceiptSeal.ReceiptHasProposer | container/oci-image/docker_local_state.py:93-113 | a receipt that appears is the whole proposal of one of the processes |
| Fixture.Cluster.StartNode | e2e-test/allocation.py:65-93 | whatever fails, every existing resource of the run is recorded; success implies the node, and its retained namespace, are recorded |
| Fixture.Cluster.CreateNetwork | e2e-test/allocation.py:12-26 | the network is recorded before the request that may time out after succeeding |
| Fixture.Cluster.Start | e2e-test/fixture.py:114-131 | stopping at any point of the start leaves every existing resource recorded |
| Fixture.Cluster.Close | e2e-test/fixture.py:213-238 | returning without error leaves nothing of the run exactly unless it was closed before with resources left; closed is set exactly when all removals succeeded; when Docker serves every request it need not refuse, closing succeeds |
| Fixture.Cluster.Exit | e2e-test/fixture.py:252-299 | status pass exactly for no error, clean diagnostics and completed removal; not_executed exactly for that error with clean diagnostics and cleanup; the file says pass exactly when there was no error and leaving raised none |
| Fixture.Cluster.RunCase | e2e-test/fixture.py:240-299 | a whole case ends normally if and only if its file says pass; once closed, nothing of the run is left exactly unless the body closed the cluster itself and ended with resources |
| BrowserBatch.RunBatch | e2e-test/browser_batch.py:55-71 | clients wait for all entries, exits wait for all clients and unwind the entries once each, each exit sees its own failure or the peer that blocked it; errors are attributed and empty exactly when every case succeeded |
| BrowserBatch.RunBrowserBatches | e2e-test/browser_batch.py:49-74 | batches are a feasible split; each ran well; the errors are those of the runs in order and empty exactly when all succeeded; fail-fast stops after the first batch with an error |
| BrowserBatch.ShapeIsDisciplined | e2e-test/browser_batch.py:11-71 | entries in order, clients, exits in reverse imply the whole ordering discipline |
| BrowserBatch.Unwind | e2e-test/browser_batch.py:22-31 | exits run newest first, each with its own failure; each cleanup error belongs to the fixture that raised it |
| Dataset.ExactlyOneOwner | sdk/crowdb_dataset/iterable.py:8-15 | for all worker and world sizes every index has exactly one owning pair of rank and worker |
| Dataset.Reader.Advance | sdk/crowdb_dataset/iterable.py:47-67 | leaves an acknowledged batch, refuses an unacknowledged one, rejects unsound continuations, yields or skips the next window; acknowledged batches stay the batches of a prefix of one uninterrupted read |
| Dataset.Reader.Acknowledge | sdk/crowdb_dataset/iterable.py:28-30 | returns the cursor behind the batch; extends the acknowledged batches by exactly this one unless it repeats |
| Dataset.Reader.Resume | sdk/crowdb_dataset/iterable.py:39-51 | a session opened at the saved cursor continues the prefix without gap or repetition |
| Dataset.Reader.Iterate | sdk/crowdb_dataset/iterable.py:47-51 | iterating the object again may repeat the batch acknowledged last and never skips one |
| Dataset.NullCursorStartsOver | sdk/crowdb_dataset/iterable.py:50-51 | after the null cursor, a first session and any second one together are a stretch of one read if and only if the first had nothing to deliver |
| Dataset.OneWindowFurther | sdk/crowdb_dataset/iterable.py:52-67 | one more window extends the uninterrupted read at its end, and the deliveries by that window unless it is empty |
| RetainedStorage.DataRoot.Launch | container/oci-image/runtime.py:106-146 | changes nothing, or records exactly the accepted media and keeps every recorded mapping, also when it fails after the file was replaced; the history stays faithful |
| RetainedStorage.Inputs | container/oci-image/storage.py:15-44 | accepts exactly suitable media with distinct node paths and distinct underlying resources, files before devices |
| RetainedStorage.ValidateRetained | container/oci-image/storage.py:58-83 | accepts exactly when the retained declaration is readable and each of its mappings is kept, gaining at most a resource identity |
| RetainedStorage.FaithfulExtends | container/oci-image/storage.py:58-103 | recording one more kept declaration keeps all earlier ones, over any number of launches |
| RetainedStorage.ResourceKeepsItsPath | container/oci-image/storage.py:36-43 | over a whole history one underlying resource keeps one path, and one path keeps backend, source, backing and its recorded resource |
| LockMatch.LockMatches | e2e-test/image_identity.py:180-211 | accepts exactly equal package keys, equal other fields and one-sided edges only to crates that are development and never production dependencies of the pair |
| LockMatch.ProductionGraphIsKept | e2e-test/image_identity.py:180-211 | accepted locks have the same production dependency graph: every root reaches the same packages in any number of steps |
| LockMatch.MatchesIsSymmetric | e2e-test/image_identity.py:180-211 | swapping the locks together with the manifest pairs does not change the answer |
| LockMatch.MatchesIsReflexive | e2e-test/image_identity.py:187-190 | every lock matches itself |
| LockMatch.ProductionManifestIsStable | e2e-test/image_identity.py:157-177 | taking the production part twice changes nothing, keeps every production dependency and drops all development ones |
| Publish.Export | e2e-test/publish.py:83-127 | rejects exactly non-positive limits; each file is decided under the budget left to it or unreadable; the exported bytes add up and stay within the total limit; each export path holds the last payload written there |
| Publish.ExportsAreTruthful | e2e-test/publish.py:86-121 | in every export a copy is whole and within its limits, a truncation is a proper suffix of the size its reason allows, a skip has a true reason |
| Publish.ExportOne | e2e-test/publish.py:86-121 | a file gets the record decided from its size, kind and the remaining budget, or is unreadable; both are truthful |
| Publish.ReadTail | e2e-test/publish.py:41-52 | both ways of reading return the last bytes up to the limit and the true size |
| Publish.ReadStreamedTail | e2e-test/publish.py:48-52 | keeping only the tail of each chunk ends with the tail of the whole |
| Publish.NamesAreSafeIffPathsDiffer | e2e-test/publish.py:106-111 | whatever files with these names contain, whatever the limits and whatever fails, every exported payload stays if and only if no two names have the same export path |
| Publish.CompressedNeighboursClash | e2e-test/publish.py:107-111 | a log and its compressed copy are never safe to export together |
| Publish.EqualNeighboursMayBeCut | e2e-test/publish.py:105-118 | even with equal contents the second may be cut by the remaining budget and replace the whole first copy |

## Left out

- Vote lockouts, leases and linearizable reads: they are timers, and the model lets them run out at any moment.
- Membership changes and their epochs, and replicas without a vote: the voters of the group model are fixed. `ReplyFold` folds answers of both.
- A crash between a change in memory and its record on disk: a restart keeps terms, votes and slots.
- Installing chosen entries fetched from the leader, applying, compaction and replay of the log, and the early-acknowledging write-ahead log.
- Trimming of slots in the group model; the trimmed cases of the acceptor are in `PxAcceptor`.
- Liveness of consensus and elections.
- The storage engine: chunk placement, trees, erasure coding, S3 and console services.
- HostData: opening by descriptor, permission bits and symbolic-link checks; a path is a well-formed private file.
- DockerLocal: the check that an existing network uses the bridge driver, and image build or import.
- DockerGarbage: cleaning of stopped hosts, of images and of the builder cache.
- DockerGarbage.Daemon.DefaultClean: states what is never removed; that a clean without interference removes everything it should is `DockerLocal.Operator.Clean`.
- Fixture: host networking, sharing another node's network namespace, crash-restart and client control; a create request takes effect before its command returns or never.
- Dataset: transport, prefetch and acknowledging a batch of an abandoned generator.
- RetainedStorage: two launches of one data root that overlap.
- LockMatch: an empty dependency entry, which raises in the source; dictionaries are records with opaque text for fields that are never inspected.
- Publish: selection and sorting of the candidates, a write that fails half-way, and files that change during the export.
- Keyboard interrupts, wall-clock deadlines, log redaction and printed messages.
- Floating-point rounding of costs.
