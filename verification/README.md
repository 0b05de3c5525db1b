# etcd-manager: a verified model

etcd-manager runs an etcd cluster on a few machines. Peers gossip, the lowest one leads, and the leader
creates, grows, upgrades, backs up and restores the cluster by requests to the others, which obey only the
leadership token they accepted last. This project models that protocol and the algorithms around it in
Dafny and proves what they keep over whole runs.

How the files fit together:

- `Protocol`, `ProtocolInvariant`, `ProtocolSteps`, `ProtocolRivals`, `ProtocolTheorems`: the system as steps. Several controllers
  run cycles at the same time; requests are checked by the node they reach; requests are lost, nodes crash
  and restart, leaders stop anywhere, clients write. The nodes compare leadership tokens, which a leader keeps
  for its term; the model gives each cycle an epoch of its own instead. That is the same to the nodes, because
  a controller runs its cycles one after the other and asserts its token at every peer before it asks anything
  of one. The main theorem is that a client never reads anything but the result of the acknowledged writes,
  across dump-and-restore upgrades and restores into a cluster that stands. It holds for runs in which a
  controller that chooses a branch has an up-to-date queue of commands; one that writes to the control store is
  still followed by its view; from a desired size of four on, so is one that copies a backup into etcd; and there
  are fewer than two quorums of machines. The code checks none of these. The invariant has two halves: the steps
  keep the state sound (`ProtocolSteps`), and they keep every rival of the current cluster too weak to gather a
  quorum ever again (`ProtocolRivals`).
- `ProtocolRuns`, `ProtocolStories`, `ProtocolLimits`, `ProtocolExact`: for each of these hypotheses, and each kind of
  step it is about, runs that break it once and lose a write; and the proof that copies need no fence exactly
  up to a desired size of three.
- `ProtocolHistory`: what must have happened before a step, in every run: acceptances, choices, restores.
- `Node`, `NodeTheorems`, `NodeHistory`, `EtcdServer`: one node, its state file and its etcd process under every
  failure, as a class specified by step functions; and where its state comes from over any sequence of events.
- `Refinement`, `Simulation`, `Choices`: the protocol against the rest of the model. What the service of a node does are
  moves of the protocol and every such move is a step of it, so that runs follow machines; and its cycles choose
  exactly what the controller chooses.
- `Leadership`, `Term`, `Controller`, `Versions`, `Fleet`: who is accepted as leader, how a leadership term starts,
  what a cycle chooses, and what follows for the member count, rolling upgrades and quarantine over runs.
- `Retention`: which backups a cleanup keeps, over any sequence of additions and cleanups.
- `CopyTo`, `Hosts`, `HostsRead`, `GceUrl`, `Calendar`, `Rfc3339`, `BackupNames`: paging, the hosts file, resource links, times
  and backup names.
- `Quorum`, `Sets`, `Lexical`, `Text`, `Decimals`: arithmetic of quorums, sets, string order and sorting, splitting
  and joining, decimal numbers.

Clocks, random tokens, the answers of other machines, and the failures of disk, process and network are
parameters, so every theorem is about all of them. `dafny verify dfyconfig.toml` checks everything.

## Model

| member | source | states |
|---|---|---|
| `ProtocolTheorems.NoAcknowledgedWriteIsLost` | pkg/controller/upgrade.go:60-133 | in every disciplined run, at every moment, what a client reads through any node is exactly the result of the writes acknowledged so far, so neither a dump-and-restore upgrade nor a restore in place loses any |
| `ProtocolTheorems.StepKeepsInv` | pkg/controller/controller.go:184-556 | every disciplined step of nodes, controllers and clients keeps the invariant behind the main theorem |
| `ProtocolTheorems.ReplacedForGood` | pkg/controller/newcluster.go:111-168 | in every disciplined run a cluster that has been replaced never has a quorum again, whatever late commits, joins, restarts and superseded leaders do |
| `ProtocolTheorems.StepKeepsWeak` | pkg/controller/newcluster.go:134-168 | no step, disciplined or not, lets a cluster recover that too few nodes belong to or can still be brought to by its maker or an expansion |
| `ProtocolTheorems.AtMostOneQuorateCluster` | pkg/controller/newcluster.go:33-66 | with fewer than two quorums of machines, in every run whatsoever, two cluster tokens never both have a running quorum |
| `ProtocolTheorems.NoRemovalIsDue` | pkg/controller/controller.go:495-526 | in every run whatsoever, with no more machines than members are desired, which is so for every odd size, no cycle comes to a branch that removes a member |
| `ProtocolTheorems.StepKeepsSized` | pkg/controller/controller.go:473-488 | every cluster ever started or grown needs at least the quorum of the desired member count |
| `ProtocolInvariant.HeldUnique` | pkg/controller/controller.go:261-289 | at most one cycle with a quorum of peers in its view is followed by all of them |
| `ProtocolInvariant.NobodyServes` | pkg/controller/restore.go:97-119 | while a creation or a restore is pending, no node serves clients |
| `ProtocolInvariant.QuorateCluster` | pkg/controller/newcluster.go:111-168 | a quorate cluster is the one that holds the acknowledged data, or one started since the last change of mode |
| `ProtocolSteps.ChooseLiftStep` | pkg/controller/controller.go:455-464 | choosing to lift quarantine on an up-to-date queue keeps the state sound |
| `ProtocolSteps.SilenceStep` | pkg/controller/controller.go:466-470 | quarantining any node by any accepted controller, without a quorum and whatever the queue, keeps the state sound |
| `ProtocolSteps.ResendStep` | pkg/controller/upgrade.go:179-193 | a reconfiguration that sends the surveyed quarantine along, for an upgrade in place or TLS, changes no durable state of the node: its flag is still the surveyed one |
| `ProtocolSteps.LiftStep` | pkg/controller/restore.go:97-119 | a request that lifts quarantine at one member keeps the state sound, also from a leader that others have superseded elsewhere |
| `ProtocolSteps.QuarantineStep` | pkg/controller/upgrade.go:75-79 | quarantining one member keeps the state sound: every member but the remaining ones is silent |
| `ProtocolSteps.DumpStep` | pkg/controller/upgrade.go:81-87 | the dump keeps the state sound: taken by a leader that is still followed, after quarantine, it is exactly the acknowledged data |
| `ProtocolSteps.AddCommandStep` | pkg/controller/upgrade.go:89-111 | queueing the restore, by a leader that is still followed, moves the system to a suspended state in which the queue holds all acknowledged data |
| `ProtocolSteps.HaltStep` | pkg/controller/upgrade.go:114-130 | stopping a member after the command is queued keeps the state sound |
| `ProtocolSteps.ChooseCreateStep` | pkg/controller/newcluster.go:32-66 | starting a creation keeps the state sound: a first one always, one for a restore on an up-to-date queue |
| `ProtocolSteps.ChooseRestoreStep` | pkg/controller/controller.go:395-420 | going on to restore into the standing cluster, when the peers are a quorum but too few to create one, keeps the state sound on an up-to-date queue |
| `ProtocolSteps.BeginCopyStep` | pkg/controller/restore.go:54-66 | a restore begun at a member that was healthy at the survey goes to the cluster just created, or to the observed one if none was |
| `ProtocolSteps.ClearStep` | pkg/controller/newcluster.go:111-125 | stopping a configured peer before a creation keeps the state sound |
| `ProtocolSteps.PrepareStep` | pkg/controller/newcluster.go:134-150 | a prepare keeps the state sound |
| `ProtocolSteps.CommitStep` | pkg/controller/newcluster.go:152-168 | a commit keeps the state sound: the node starts quarantined in a cluster that holds nothing but parts of the backup |
| `ProtocolSteps.CopyStep` | pkg/etcd/restore.go:209-235 | copying one key of the backup keeps the state sound, by any leader up to a desired size of three and by one that is still followed beyond: it goes to a new cluster or puts what is there |
| `ProtocolSteps.RemoveCommandStep` | pkg/controller/restore.go:66-84 | removing the command after the copy, by a leader that is still followed, makes the restored cluster, new or not, the one that holds all acknowledged data |
| `ProtocolSteps.MarkStep` | pkg/controller/controller.go:372-381 | marking the first cluster as created, by a leader that is still followed, keeps the state sound |
| `ProtocolSteps.AddMemberStep` | pkg/controller/controller.go:856-881 | growing etcd's membership keeps the state sound, even by a superseded leader |
| `ProtocolSteps.JoinStep` | pkg/controller/controller.go:883-897 | a join into the existing cluster keeps the state sound |
| `ProtocolSteps.ClientWriteStep` | pkg/etcd/etcdprocess.go:186-189 | a put or delete through a node that is not quarantined is a write to the cluster that holds the data |
| `ProtocolRivals.SurveyedUnrivalled` | pkg/controller/controller.go:261-299 | while a leader with a quorum of peers is followed by all of them, only the cluster that it found with a quorum can have one |
| `ProtocolRivals.CreateRivals` | pkg/controller/newcluster.go:68-168 | a creation that starts while such a leader is still followed cannot gather a quorum |
| `ProtocolRivals.AddMemberRivals` | pkg/controller/controller.go:856-881 | growth brings a quorum to no cluster that has none |
| `ProtocolRivals.MarkRivals` | pkg/controller/controller.go:372-381 | when the first cluster is marked, every other one is left too few nodes for a quorum, for good |
| `ProtocolRivals.RemoveCommandRivals` | pkg/controller/restore.go:66-84 | the same for a cluster that was restored, created by that leader or standing before |
| `ProtocolHistory.PassedGateIsAccepted` | pkg/controller/controller.go:261-289 | in every run, a controller past the gate was accepted in this cycle by every peer of its view |
| `ProtocolHistory.ActorsAreBacked` | pkg/controller/controller.go:411-488 | in every run, a controller that has chosen a branch was accepted in this cycle by a quorum of the desired size, also when it expands a smaller cluster |
| `ProtocolHistory.RequestsAreFenced` | pkg/etcd/etcdserver.go:675-688 | in every run, each request that a node obeys follows its acceptance of that leader, with no other acceptance and no restart of the node between |
| `ProtocolHistory.LiftsAreChosen` | pkg/controller/controller.go:395-471 | in every run, each request that lifts quarantine follows a choice of the same cycle made with the mark set, no restore in its cached queue, a quorum of peers, and a healthy quorum of the desired version |
| `ProtocolHistory.CommandsLeaveRestored` | pkg/controller/restore.go:66-84 | in every run, a command leaves the queue only by a cycle that began a restore and copied every key of that command's backup |
| `ProtocolHistory.PrudentRunsLoseNothing` | pkg/controller/commands.go:32-57 | the main theorem with its hypotheses in terms of what has happened: before a choice its controller has read the queue since every write of another controller, and before a write to the store, or a copy from a desired size of four on, every peer of the view has accepted that leader and no other since |
| `ProtocolLimits.EveryHypothesisIsNeeded` | pkg/controller/controller.go:349-556 | no hypothesis of the main theorem can be dropped: for each kind of step there is a run that breaks it in one step of that kind, with every other step disciplined and fewer than two quorums of machines, and there is a run with two quorums of machines and no such step, after which a client reads something else than what was acknowledged |
| `ProtocolLimits.StaleLiftLosesWrites` | pkg/controller/commands.go:32-57 | for all such views: a controller elected before the restore was queued lifts quarantine on the recreated cluster, which is still empty |
| `ProtocolLimits.StaleCreateLosesWrites` | pkg/controller/controller.go:395-421 | a controller elected while the restore was queued recreates the cluster again after it was carried out |
| `ProtocolLimits.StaleUpgradeLosesWrites` | pkg/controller/upgrade.go:60-112 | a controller that misses the queued restore dumps the empty cluster and queues a second restore, of nothing |
| `ProtocolLimits.StaleExpandLosesWrites` | pkg/controller/controller.go:473-488 | a controller that misses the queued restore lets a machine join the empty cluster, open to clients |
| `ProtocolLimits.SupersededAddLosesWrites` | pkg/controller/upgrade.go:89-100 | a superseded leader queues its dump after another has opened the cluster and a client has written |
| `ProtocolLimits.SupersededRemoveLosesWrites` | pkg/controller/restore.go:66-84 | a superseded leader removes the command after another has recreated the cluster again |
| `ProtocolLimits.SupersededMarkLosesWrites` | pkg/controller/controller.go:354-383 | a superseded leader marks its cluster after another has chosen to create one; a third opens the first, and the second replaces it |
| `ProtocolLimits.StaleRestoreLosesWrites` | pkg/controller/controller.go:395-420 | a controller elected while the restore was queued, with too few peers to create a cluster, restores the old backup over what was written since it was carried out |
| `ProtocolLimits.SupersededRestoreLosesWrites` | pkg/etcd/restore.go:96-98 | a superseded leader copies late into the standing cluster, which another has restored and opened meanwhile |
| `ProtocolLimits.SupersededCopyLosesWrites` | pkg/etcd/restore.go:96-98 | so does one that copies into a cluster which it created itself |
| `ProtocolExact.WhenCopiesAreSafe` | pkg/controller/newcluster.go:36-50 | copies by superseded leaders lose no write exactly if the desired size is at most three, that is, exactly if every quorum of peers is enough to create a cluster |
| `ProtocolLimits.TwoQuorumsTwoClusters` | pkg/controller/controller.go:219-231 | without the leader lock, two machines for a cluster of one form two quorate clusters, both open to clients, and a write to one is not read from the other, with no undisciplined step |
| `Quorum.ProposalKeepsQuorum` | pkg/controller/newcluster.go:33-66 | an admitted proposal has the quorum of the full cluster and lacks at most one member |
| `Quorum.SmallSizes` | pkg/controller/newcluster.go:36-50 | a quorum of peers is always enough to create a cluster exactly up to a desired size of three |
| `Quorum.Overlap` | pkg/controller/controller.go:1007-1011 | two sets of a quorum each, out of fewer than two quorums, share an element |
| `Refinement.ProtocolStepMoves` | pkg/etcd/etcdserver.go:272-519 | every step of the protocol changes each node by the move it stands for, which the node can make then, and no other node |
| `Refinement.OwnMovesAreSteps` | pkg/etcd/etcdserver.go:121-208 | the protocol allows a node to crash, to lose its etcd, to start it again, and to let a preparation expire in every state in which the node can, and exactly then, and no other node changes |
| `Refinement.RequestsAreSteps` | pkg/etcd/etcdserver.go:675-688 | a request is obeyed in the protocol exactly if the node accepted that leader last and has not restarted, the leader is at that point of its cycle, and the node can make the move |
| `Refinement.ServiceStepMoves` | pkg/etcd/etcdserver.go:164-672 | every call at the node service, failed or not, is a sequence of the protocol's moves, each possible when it is made, that the call is entitled to |
| `Simulation.MachineIsFollowed` | pkg/etcd/etcdserver.go:164-208 | for every sequence of calls, failures, exits and restarts at one machine, interleaved with any steps of leaders, other nodes and clients, every run of the protocol goes on to one whose node follows the machine |
| `Simulation.FailuresAreFollowed` | pkg/etcd/etcdserver.go:164-208 | in particular every sequence of crashes, restarts, exits and failed starts happens in some run, from every state that a run reaches |
| `Choices.LiftIsChosen` | pkg/controller/controller.go:455-464 | a cycle of the protocol can choose to lift quarantine exactly if the controller chooses so on what the survey tells it |
| `Choices.CreateIsChosen` | pkg/controller/controller.go:354-421 | the same for creating a cluster, the first one or one to restore into: some token and some proposal can be chosen exactly then |
| `Choices.RestoreIsChosen` | pkg/controller/controller.go:395-420 | the same for restoring into the standing cluster |
| `Choices.UpgradeIsChosen` | pkg/controller/controller.go:538-551 | the same for the dump, if some peer cannot be upgraded in place, TLS is not pending and no more peers than desired are configured |
| `Choices.ExpandIsChosen` | pkg/controller/controller.go:473-488 | the same for adding a machine without etcd |
| `Choices.SurveyIsTold` | pkg/controller/controller.go:291-337 | after every survey there is a situation of the controller that tells exactly what the survey found, so the equivalences are about all of them |
| `NodeTheorems.AlwaysAgrees` | pkg/etcd/etcdserver.go:574-672 | over all calls, failures, crashes and restarts, a running process has the cluster, nodes, quarantine, version and TLS mode of the state |
| `NodeTheorems.SuccessIsOnDisk` | pkg/etcd/etcdserver.go:322-393 | after a successful commit, reconfiguration or stop the state file holds the state in memory, whatever failed before |
| `NodeTheorems.RunSynced` | pkg/etcd/etcdserver.go:150-162 | memory and state file part only in a call whose write fails |
| `NodeTheorems.RestartResumes` | pkg/etcd/etcdserver.go:164-208 | after a success, a crash and a restart bring back the same state, and the next start the same process |
| `NodeTheorems.CommitFollowsPrepare` | pkg/etcd/etcdserver.go:272-398 | a successful commit follows a successful prepare of the same token that was at most a minute old, with no other successful prepare or commit and no restart between |
| `NodeTheorems.CommitsUseDifferentPrepares` | pkg/etcd/etcdserver.go:306-393 | of two successful commits the later was prepared after the earlier, so no prepare serves two |
| `NodeTheorems.PrepareReplaces` | pkg/etcd/etcdserver.go:294-320 | a prepare succeeds only if none is outstanding or the outstanding one has expired |
| `NodeTheorems.OnlyTheAcceptedLeaderActs` | pkg/etcd/etcdserver.go:675-688 | a request has an effect only if its token was accepted before and no other token since, without a restart |
| `NodeTheorems.FailedCommitStillStarts` | pkg/etcd/etcdserver.go:200-205 | a commit that fails only at the start of etcd takes effect later, with its prepare still outstanding |
| `NodeTheorems.PanicsWithoutCluster` | pkg/etcd/etcdserver.go:479-483 | a call panics exactly if it stops or reconfigures a node whose state has no cluster |
| `NodeTheorems.SecondStopPanics` | pkg/etcd/etcdserver.go:469-493 | every stop after a successful stop panics until a commit, also across restarts |
| `NodeHistory.WhenOk` | pkg/etcd/etcdserver.go:270-470 | for each request, exactly when it succeeds: what header, state, process, preparation, clock, disk and etcd must be |
| `NodeHistory.SuccessfulCommit` | pkg/etcd/etcdserver.go:325-398 | after a successful commit the node runs the given token, members and version, as a new cluster and in quarantine exactly in the phase for one, and state and file have the flag for a new cluster cleared |
| `NodeHistory.SuccessfulReconfigure` | pkg/etcd/etcdserver.go:402-468 | after a successful reconfiguration process, state and file have the requested quarantine and version, TLS at the node's own entry exactly if asked now or on before, and the same token and other entries |
| `NodeHistory.VersionIsLastSet` | pkg/etcd/etcdserver.go:431-437 | over all events the version of the state is the one that the last commit or reconfiguration set that set one, if no restart finds the file behind |
| `NodeHistory.FlagIsLastSet` | pkg/etcd/etcdserver.go:439-439 | the same for the quarantine |
| `NodeHistory.ClusterIsLastCommitted` | pkg/etcd/etcdserver.go:441-445 | the same for the token and the members: those of the last commit, with TLS at the own entry exactly if given or asked for since |
| `NodeHistory.NewIsFromInitial` | pkg/etcd/etcdserver.go:325-359 | over all events etcd is started as a new cluster only because of a commit for a new cluster with that token whose clearing of the flag has not reached state and file |
| `NodeHistory.JoinedIsNeverNew` | pkg/etcd/etcdserver.go:361-395 | a node that joined an existing cluster never starts as a new one until another commit for one, across restarts and failed writes |
| `NodeHistory.UnstartedStaysNew` | pkg/etcd/etcdserver.go:190-208 | conversely what such a commit started was started as new, and what it left unstarted is started as new by the node's own loop until another commit, a stop or a restart |
| `EtcdServers.EtcdServer.NewEtcdServer` | pkg/etcd/etcdserver.go:97-118 | a new service has read the state file of the one before it, and does not start if that cannot be read |
| `EtcdServers.EtcdServer.InitState` | pkg/etcd/etcdserver.go:164-180 | the state is read once; a corrupt file is an error |
| `EtcdServers.EtcdServer.ValidateHeader` | pkg/etcd/etcdserver.go:675-688 | accepts exactly the right cluster name under the accepted leadership token |
| `EtcdServers.EtcdServer.FindSelfNode` | pkg/etcd/etcdserver.go:555-572 | finds the node's entry exactly if there is one, and tells if there are several |
| `EtcdServers.EtcdServer.StartEtcdProcess` | pkg/etcd/etcdserver.go:574-649 | starts what the state describes, or changes nothing |
| `EtcdServers.EtcdServer.StopEtcdProcess` | pkg/etcd/etcdserver.go:660-672 | no process is left, unless the stop fails |
| `EtcdServers.EtcdServer.CancelPrepare` | pkg/etcd/etcdserver.go:280-292 | drops the preparation of the same token only |
| `EtcdServers.EtcdServer.CommitJoin` | pkg/etcd/etcdserver.go:322-393 | both commit phases, with each point of failure |
| `EtcdServers.EtcdServer.JoinCluster` | pkg/etcd/etcdserver.go:272-398 | the new fields and the reply are those of the step the theorems are about |
| `EtcdServers.EtcdServer.Reconfigure` | pkg/etcd/etcdserver.go:401-466 | the same for a reconfiguration |
| `EtcdServers.EtcdServer.StopEtcd` | pkg/etcd/etcdserver.go:469-519 | the same for a stop |
| `EtcdServers.EtcdServer.RunOnce` | pkg/etcd/etcdserver.go:182-208 | the same for the node's own loop |
| `EtcdServers.EtcdServer.GetInfo` | pkg/etcd/etcdserver.go:211-235 | reports the state exactly if it has a cluster, so what it reports can be stopped without a panic |
| `EtcdServers.EtcdServer.LeaderNotification` | pkg/privateapi/leadership.go:36-91 | an acceptance moves the fence and changes nothing else of the node |
| `Leadership.Server.UpdateFromDiscovery` | pkg/privateapi/peers.go:109-129 | a discovered id becomes known, and no known peer changes |
| `Leadership.Server.UpdatePeerInfo` | pkg/privateapi/peers.go:178-209 | a report under another identity is ignored; every report is filed under its own id |
| `Leadership.Server.UpdateFromPingRequest` | pkg/privateapi/peers.go:83-107 | a ping with an id refreshes exactly that peer |
| `Leadership.Server.SnapshotHealthy` | pkg/privateapi/leadership.go:93-107 | lists every healthy peer once |
| `Leadership.Server.AddPeersFromView` | pkg/privateapi/leadership.go:109-128 | all peers of the view become known, known ones keep their state |
| `Leadership.Server.LeaderNotification` | pkg/privateapi/leadership.go:36-91 | accepts exactly if the view has every peer that was healthy before; a rejection names one that is missing and leaves the accepted leader |
| `Leadership.Server.IsLeader` | pkg/privateapi/leadership.go:130-154 | true exactly for the last accepted token |
| `Leadership.Server.BecomeLeader` | pkg/privateapi/leadership.go:156-195 | succeeds exactly if every healthy peer accepted, each asked once; a rejected bidder learns the peers of the one that rejected it |
| `Leadership.Server.AssertLeadership` | pkg/privateapi/leadership.go:197-235 | the claim of every cycle succeeds exactly if every healthy peer accepts it |
| `Leadership.ViewCoverage` | pkg/privateapi/leadership.go:46-91 | over any pings, discoveries and bids, the view of an accepted bid has every peer the node has heard from in time, so a bidder lowest in its view is not above any of them |
| `Leadership.WhenAccepted` | pkg/privateapi/leadership.go:35-89 | by what a node has heard alone: a bid is accepted exactly if its view is not empty and has every peer whose last report, or first mention in a bid if it never reported, is at most the timeout old |
| `Leadership.OneLeaderPerNode` | pkg/privateapi/leadership.go:197-235 | a node that has heard from each of two bidders in time when it accepts the other, at whatever times, has accepted only one |
| `Term.EtcdController.FindSelf` | pkg/controller/controller.go:192-209 | the sorted list has the same peers, and the test on its first entry is whether the controller is the lowest |
| `Term.EtcdController.PassGate` | pkg/controller/controller.go:187-289 | a cycle goes on exactly if the controller is lowest, its claim was accepted, and every peer is among those that acknowledged its bid; the count is the number of distinct peers; otherwise the term starts, ends or stays as the source has it, and a new term forgets all members |
| `Term.EtcdController.Watch` | pkg/controller/controller.go:301-314 | the time kept for a member is that of the sighting of this term in which it was last healthy or first seen |
| `Term.EtcdController.PickVictim` | pkg/controller/controller.go:937-985 | a member removed as unhealthy was so in every sighting of the term since one at least the deadline ago; there is always an entry for it |
| `Controller.CountMembers` | pkg/controller/controller.go:316-337 | the counters are the sizes of the sets of configured, quarantined and other peers |
| `Controller.FindMismatches` | pkg/controller/controller.go:433-451 | finds exactly the peers of another version, and whether all can be upgraded in place |
| `Controller.Run` | pkg/controller/controller.go:350-555 | the branches with their counters make the choice that the theorems on runs are about |
| `Controller.Propose` | pkg/controller/newcluster.go:33-66 | a proposal is made exactly if admitted, from the peers, with the full quorum; the fatal branch is not reached |
| `Controller.PrepareForUpgrade` | pkg/controller/upgrade.go:28-58 | passes exactly if every member is a peer, all are healthy, and the cluster is complete |
| `Controller.ChooseUpgrade` | pkg/controller/upgrade.go:135-197 | reconfigures one mismatched member of a complete healthy cluster, and none only if there is none |
| `Versions.SupportedSteps` | pkg/etcdversions/mappings.go:55-75 | supported are exactly the steps to the same or next minor version of etcd 3, despite unsigned wrap-around |
| `Fleet.MemberCountIsBounded` | pkg/controller/controller.go:473-526 | over every run, from the moment there is a cluster on, it has as many members as desired or one fewer |
| `Fleet.UnhealthyMembersStay` | pkg/controller/controller.go:504-526 | so under a fixed specification no run removes a member for being unhealthy |
| `Fleet.UpgradeIsRolling` | pkg/controller/upgrade.go:165-193 | an in-place upgrade changes the version of one machine and nothing else, and the mismatched machines drop by exactly one |
| `Fleet.WhenUpgrading` | pkg/controller/controller.go:538-551 | an upgrade is chosen exactly if it is due, and is made in place exactly if every peer of another version can be upgraded in place |
| `Fleet.MismatchIsActedOn` | pkg/controller/controller.go:491-551 | a complete, healthy and acknowledged cluster with nothing else to do is not left alone while a peer has another version, and is dumped exactly if some peer cannot be upgraded in place |
| `Fleet.UpgradedOnceInPlace` | pkg/controller/upgrade.go:135-197 | over every run, whatever versions there are, from recreation to recreation a machine that stays configured keeps its version or was upgraded once, in place, to the desired one |
| `Fleet.UpgradeLeavesQuorum` | pkg/controller/upgrade.go:28-58 | all other members are healthy then, and they are a quorum exactly if there are three members or more |
| `Fleet.NeverDumped` | pkg/controller/controller.go:433-451 | while all machines can be upgraded in place, no run dumps and recreates the cluster |
| `Fleet.VersionsStayClose` | pkg/etcdversions/mappings.go:55-75 | over such a run every version is the desired one or at most one minor version behind it |
| `Fleet.UpgradesAreBounded` | pkg/controller/upgrade.go:165-193 | over every run, upgrades plus machines still behind are at most those behind at the start plus those that joined |
| `Retention.BackupCleanup.MaybeDoBackupMaintenance` | pkg/backupcontroller/cleanup.go:102-191 | the store afterwards is exactly the kept backups and those whose removal failed; at most once an hour |
| `Retention.BackupCleanup.FileAll` | pkg/backupcontroller/cleanup.go:120-161 | the loop files the earliest timestamp of each bucket, the last name of each timestamp, the recent and the unreadable names |
| `Retention.BackupCleanup.Survivors` | pkg/backupcontroller/cleanup.go:118-165 | the names retained or ignored are exactly the kept ones |
| `Retention.EarliestOfDaySurvives` | pkg/backupcontroller/cleanup.go:125-184 | over any additions and cleanups the earliest timestamp of each UTC day survives while its age is below the longest retention |
| `Retention.EarliestOfHourSurvives` | pkg/backupcontroller/cleanup.go:125-184 | the same for each UTC hour and the hourly retention |
| `Retention.UnreadableSurvives` | pkg/backupcontroller/cleanup.go:126-132 | a backup whose name cannot be read is never removed |
| `Retention.RecentSurvives` | pkg/backupcontroller/cleanup.go:134-142 | over any additions and cleanups a backup younger than an hour at every cleanup survives |
| `Retention.OneOfEachHourAndDay` | pkg/backupcontroller/cleanup.go:139-165 | of the backups between an hour and the hourly retention old a cleanup leaves at most one for each UTC hour, of older ones at most one for each UTC day |
| `Retention.ExpiredIsRemoved` | pkg/backupcontroller/cleanup.go:144-165 | at the longest retention the timestamp is removed, so the bound is exact |
| `Retention.SharedBucketsAreHarmless` | pkg/backupcontroller/cleanup.go:144-165 | each hour with a backup of hourly age, and each day with one of daily age, keeps one although both use one map |
| `Retention.SurvivorsAreBounded` | pkg/backupcontroller/cleanup.go:144-184 | the readable backups of an hour or older that are left are at most the hour and day slots of the two windows |
| `Retention.RerunRemovesNothing` | pkg/backupcontroller/cleanup.go:118-184 | a second cleanup at the same instant removes nothing, in whatever order the store is listed |
| `CopyTo.CopyTo` | pkg/etcdclient/client.go:182-219 | the sink always gets a prefix of the keys, in order and once each; without failure all of them, exactly if pages hold more than one key or there is at most one |
| `CopyTo.PageAt` | pkg/etcdclient/client.go:188-197 | a page starts with the last key copied and has everything after it up to the limit |
| `Hosts.KeepsOutsideLines` | pkg/hosts/hosts.go:101-150 | for every file exactly the lines outside of managed blocks are kept, in order, but for the blank line after a block and empty lines at the end |
| `Hosts.OneBlock` | pkg/hosts/hosts.go:138-176 | the result has exactly one managed block, at its end, after exactly one empty line |
| `Hosts.LastWriteWins` | pkg/hosts/hosts.go:98-178 | rewriting a rewritten file gives what rewriting the original gives |
| `Hosts.Idempotent` | pkg/hosts/hosts.go:98-178 | rewriting again with the same hosts per address changes nothing, whatever the file was |
| `Hosts.WhenRecognizable` | pkg/hosts/hosts.go:35-36 | the guard lines are recognized again exactly if the key is one line that does not end in white space |
| `Hosts.RecordsDependOnSets` | pkg/hosts/hosts.go:152-171 | the records depend neither on map order nor on the order or repetition of hosts |
| `HostsRead.RecordsReadBack` | pkg/hosts/hosts.go:152-171 | split at white space, the records name each address once, followed by exactly its hosts |
| `Hosts.RenderLine` | pkg/hosts/hosts.go:154-168 | the loop writes the sorted hosts without repetitions |
| `Hosts.RenderRecords` | pkg/hosts/hosts.go:152-171 | visiting the addresses in any order gives the records of the map |
| `Hosts.ScanFile` | pkg/hosts/hosts.go:101-149 | the line scanner with its flags gives the prefix the theorems are about |
| `Hosts.UpdateHostsFileWithRecords` | pkg/hosts/hosts.go:87-178 | the new text is the rewriting of the old one with the records of the map |
| `Hosts.Merge` | pkg/hosts/hosts.go:62-81 | an address has its primary hosts, and a fallback host exactly if that has no primary address |
| `Hosts.MergeIsDetermined` | pkg/hosts/hosts.go:62-84 | the order in which maps are visited does not change the file |
| `Hosts.Provider.AddFallbacks` | pkg/hosts/hosts.go:48-53 | replaces the fallbacks and rewrites the file with the merged records |
| `Hosts.Provider.UpdateHosts` | pkg/hosts/hosts.go:55-60 | replaces the primary hosts and rewrites the file with the merged records |
| `GceUrl.BuildURL` | pkg/volumes/gce/gce_url.go:34-54 | the text is the parts joined by slashes |
| `GceUrl.PrintedText` | pkg/volumes/gce/gce_url.go:34-54 | the text of a link, with the host, the version or v1, and the fields that are there |
| `GceUrl.ParseGoogleCloudURL` | pkg/volumes/gce/gce_url.go:56-119 | the loop over positions reads the parts as the grammar does |
| `GceUrl.ParsePrinted` | pkg/volumes/gce/gce_url.go:34-119 | parsing a printed link gives it back, with the default version, exactly if it is well formed; the kind "regions" is |
| `GceUrl.ParsePrintParse` | pkg/volumes/gce/gce_url.go:56-119 | printing and parsing again what was parsed from any text gives the same link |
| `Calendar.OrderOfFields` | pkg/backup/vfs.go:72-72 | dates ordered field by field are ordered by their instants, and equal only if these are |
| `Calendar.DaysInClosedForm` | pkg/backup/vfs.go:72-72 | the number of a day is that of the closed formula of the Gregorian calendar, for all years |
| `Calendar.CivilOf` | pkg/backup/vfs.go:72-72 | every instant of the years 0000 to 9999 has a valid date and time that denotes it |
| `BackupNames.ParseMadeName` | pkg/backupcontroller/parse.go:29-45 | a name parses back to its second and its suffix, for any suffix |
| `Rfc3339.ReadRendered` | pkg/backupcontroller/parse.go:38-42 | the text of any valid time, with a short hour, a fraction or an offset, is read back as its parts |
| `Rfc3339.ReadIsRendered` | pkg/backupcontroller/parse.go:38-42 | nothing but the text of a valid time is read |
| `Rfc3339.TextsOfInstant` | pkg/backupcontroller/parse.go:29-45 | a text is read as an instant exactly if it is the text of some valid time that denotes it |
| `Rfc3339.PlainTextIsUnique` | pkg/backup/vfs.go:72-72 | of the texts of an instant only one has the form in which names are written |
| `Rfc3339.OrderOfStamps` | pkg/backup/vfs.go:72-72 | written times sort by time, as section 5.1 of RFC 3339 intends |
| `BackupNames.OrderOfNames` | pkg/backup/vfs.go:72-132 | the order of names is the order of (time, sequence number), and different pairs have different names |
| `BackupNames.NextNameIsLater` | pkg/etcd/backup.go:71-80 | of two backups in a row the later is listed later, exactly unless they share a second and the counter wrapped |
| `BackupNames.Uploads.UploadBackup` | pkg/etcd/backup.go:75-80 | the counter stays in six digits and the name carries it |
| `BackupNames.ListBackups` | pkg/backup/vfs.go:107-137 | the listing is sorted and has exactly the directories with a meta file |
| `BackupNames.ListedIsDirectories` | pkg/backup/vfs.go:107-131 | a directory is listed exactly as often as there are meta files in it |
| `BackupNames.ListingIsChronological` | pkg/backup/vfs.go:132-136 | a listing of made names is in order of time, then sequence number |

## Left out

- ProtocolTheorems.NoAcknowledgedWriteIsLost: the code neither re-reads the command queue in every cycle (the default interval is ten years, cmd/etcd-manager/main.go:194) nor fences writes to the control store or a copy once it has begun (pkg/etcd/restore.go:96), so the theorem assumes an up-to-date queue where a branch is chosen on it, and a leader that is still followed where the store is written or, from a desired size of four on, a backup is copied; `ProtocolLimits.EveryHypothesisIsNeeded` shows that each is needed. Its runs have no removal of members (pkg/controller/controller.go:937-1005): `ProtocolTheorems.NoRemovalIsDue` shows that none comes up without spare machines, which leaves out an even desired size with one machine more.
- ProtocolTheorems.StepKeepsInv: the same hypotheses, for one step.
- ProtocolSteps.ChooseLiftStep: the queue is up to date; without that `ProtocolLimits.StaleLiftLosesWrites`.
- ProtocolSteps.ChooseCreateStep: the queue is up to date, once a cluster was created; without that `ProtocolLimits.StaleCreateLosesWrites`.
- ProtocolSteps.ChooseRestoreStep: the queue is up to date; without that `ProtocolLimits.StaleRestoreLosesWrites`.
- ProtocolSteps.CopyStep: from a desired size of four on, the leader is still followed; without that `ProtocolLimits.SupersededRestoreLosesWrites` and `ProtocolLimits.SupersededCopyLosesWrites`.
- ProtocolSteps.AddCommandStep: the leader is still followed; without that `ProtocolLimits.SupersededAddLosesWrites`.
- ProtocolSteps.RemoveCommandStep: the leader is still followed; without that `ProtocolLimits.SupersededRemoveLosesWrites`.
- ProtocolSteps.MarkStep: the leader is still followed; without that `ProtocolLimits.SupersededMarkLosesWrites`.
- ProtocolTheorems.AtMostOneQuorateCluster: members are created and added but not removed, and there are fewer than two quorums of machines; `ProtocolLimits.TwoQuorumsTwoClusters` has two quorate clusters otherwise.
- ProtocolSteps.JoinStep: a joiner joins the observed cluster, whose members it is told (pkg/controller/controller.go:813-835); the token that it files its data under is that of any configured peer (pkg/controller/controller.go:800-807) and is not modelled apart.
- Several leaders at once in `Fleet`: there one controller acts at a time; concurrency is in the protocol.
- Refinement.ServiceStepMoves: writes of the state file succeed, as in `Simulation.MachineIsFollowed`; failed ones are in `NodeTheorems` only, where memory and disk can part. A preparation that a failed commit leaves behind is dropped in the protocol; a leader never uses it, because it always prepares first.
- Requests delivered after the leader has given up on them, and peers that change between the peer list and the asserted view of one cycle.
- Raft: an etcd cluster is one linearizable map and one membership set, and a member that answers has a quorum.
- Versions and TLS in the protocol: whether some peer has another version is arbitrary in each survey, and an upgrade in place or a switch to TLS may be asked of any configured peer after any survey, so its theorems cover more runs than the code has.
- Specifications that change during a run, and restore commands added by an administrator.
- Leadership.Server.LeaderNotification: a call reads the clock once; connections and pings in flight are not modelled.
- Leadership.Server.UpdateFromDiscovery: the addresses of a discovered peer are not modelled.
- Term.EtcdController.PassGate: what the peers answer to the bid and to the claim are parameters here; that they accepted is proved in `ProtocolHistory.PassedGateIsAccepted`. The leader lock is not modelled; the program passes none (cmd/etcd-manager/main.go:541).
- EtcdServers.EtcdServer.Reconfigure: URLs of nodes and key pairs are not modelled, and a panic leaves the model's node as it was.
- EtcdServers.EtcdServer.StopEtcd: the move of the data directory to the trashcan is not modelled.
- NodeHistory.NewIsFromInitial: a write of the state file that fails leaves the file as it was, as it was to be, or unreadable, and not with the state of another cluster.
- Simulation.MachineIsFollowed: what a leader asks of the machine, a leader of the protocol asks at that point of its cycle, and commits only what it has prepared there; arbitrary requests that no controller sends are in `NodeTheorems` and `NodeHistory`.
- Retention.BackupCleanup.MaybeDoBackupMaintenance: the clock is later than about the year 293, so that the zero time is older than any retention; names are read by an arbitrary function to instants in UTC, while the source also keeps apart equal instants of different zones, which the manager never writes.
- Hosts.Idempotent: addresses do not start with # or white space and nothing contains a line break, as for the addresses and names the program has; file errors and the aliasing of host slices are not modelled.
- CopyTo.CopyTo: the keyspace does not change during the copy.
- DoBackup, DoRestore and their temporary etcd, command files, the control store's format, volumes, discovery, DNS broadcast, PKI, TLS reconciliation, locks and command-line parsing: foreign calls, or they would only add easy members.
