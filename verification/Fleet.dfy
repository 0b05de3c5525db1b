/** Whole runs of controller cycles under one leader at a time and a fixed specification: how many members
    there are, which versions they run, and who lifts a quarantine. What the controller sees of peers and
    health is arbitrary in every cycle, and a cycle may stop after any of its effects. */
module Fleet {
  import opened Options
  import opened Quorum
  import opened Controller
  import opened Versions

  /** etcd's membership, and what each machine is configured for. */
  datatype World = World(members: set<MemberId>, nodes: map<PeerId, EtcdInfo>)

  /** The situation is a true, though partial, picture of the world. */
  predicate Sees(w: World, s: Situation) {
    && (forall p | p in s.state.peers :: s.state.peers[p] == if p in w.nodes then Some(w.nodes[p]) else None)
    && (s.state.members.Keys == w.members || s.state.members == map[])
    && s.state.healthy <= s.state.members.Keys
  }

  // ---------------------------------------------------------------- effects

  /** A new cluster: the peers are stopped, and a proposal is started. */
  predicate Recreated(s: Situation, spec: Spec, w: World, w': World) {
    && EnoughPeers(|s.state.peers|, spec.memberCount)
    && (w'.members == w.members || |w'.members| == ProposalSize(|s.state.peers|, spec.memberCount))
    && (forall p | p in w'.nodes ::
          || (p in w.nodes && w'.nodes[p] == w.nodes[p])
          || (p in s.state.peers && w'.nodes[p].quarantined && w'.nodes[p].version == spec.version))
  }

  predicate Flagged(s: Situation, q: bool, w: World, w': World) {
    && w'.members == w.members && w'.nodes.Keys == w.nodes.Keys
    && forall p | p in w.nodes ::
         w'.nodes[p] == w.nodes[p] || (p in s.state.peers && w'.nodes[p] == w.nodes[p].(quarantined := q))
  }

  /** One member more, and the joiner starts with the token and the version of some configured peer. */
  predicate Added(s: Situation, w: World, w': World, id: MemberId, joiner: PeerId, model: PeerId) {
    && |s.state.healthy| >= QuorumSize(|s.state.members|)
    && id !in w.members && w'.members == w.members + {id}
    && joiner in s.state.peers && s.state.peers[joiner].None?
    && model in s.state.peers && s.state.peers[model].Some?
    && (w'.nodes == w.nodes
        || w'.nodes == w.nodes[joiner := EtcdInfo(s.state.peers[model].value.token, false, s.state.peers[model].value.version)])
  }

  predicate Upgraded(s: Situation, spec: Spec, w: World, w': World, p: PeerId) {
    && Upgradable(s.state, spec) && s.state.healthy == s.state.members.Keys
    && p in Mismatched(s.state, spec.version) && p in s.state.members.Values
    && p in w.nodes && w' == w.(nodes := w.nodes[p := w.nodes[p].(version := spec.version)])
  }

  predicate Halted(s: Situation, spec: Spec, w: World, w': World) {
    && Upgradable(s.state, spec)
    && w'.members == w.members
    && forall p | p in w'.nodes ::
         p in w.nodes && (w'.nodes[p] == w.nodes[p] || w'.nodes[p] == w.nodes[p].(quarantined := true))
  }

  /** What a decision can do to the world; it can always do nothing. */
  ghost predicate Effect(s: Situation, spec: Spec, d: Decision, w: World, w': World) {
    || w' == w
    || (d in {CreateFirst, RestoreBackup} && Recreated(s, spec, w, w'))
    || (d.SetQuarantine? && Flagged(s, d.quarantined, w, w'))
    || (d == AddNode && exists id, joiner, model :: Added(s, w, w', id, joiner, model))
    || (d.RemoveNode? && exists v :: v in w.members && w' == w.(members := w.members - {v}))
    || (d == UpgradeInPlace && exists p :: Upgraded(s, spec, w, w', p))
    || (d == StopForUpgrade && Halted(s, spec, w, w'))
  }

  ghost predicate Cycle(spec: Spec, s: Situation, w: World, w': World) {
    s.spec == Some(spec) && Sees(w, s) && Effect(s, spec, Choose(s), w, w')
  }

  /** A run: worlds, and the situation of each cycle between them. */
  ghost predicate Run(spec: Spec, worlds: seq<World>, cycles: seq<Situation>) {
    && |worlds| == |cycles| + 1
    && forall i | 0 <= i < |cycles| :: Cycle(spec, cycles[i], worlds[i], worlds[i + 1])
  }

  // ---------------------------------------------------------------- the choices

  lemma WhenAdding(s: Situation)
    requires Choose(s) == AddNode
    ensures s.spec.Some? && 0 < |s.state.members| < s.spec.value.memberCount
    ensures s.acked >= QuorumSize(|s.state.members|)
  {
  }

  lemma WhenRemoving(s: Situation)
    requires Choose(s).RemoveNode?
    ensures s.spec.Some? && |s.state.members| >= s.spec.value.memberCount
    ensures |s.state.members| == s.spec.value.memberCount ==> |Configured(s.state)| > |s.state.members|
  {
  }

  /** A supported cluster that exists and has no restore to do. */
  predicate Running(s: Situation) {
    s.spec.Some? && !s.isNew && !s.restoreQueued && s.supported(s.spec.value.version)
  }

  /** All configured peers are in quarantine, or none. */
  predicate Uniform(c: ClusterState) {
    Quarantined(c) == {} || Quarantined(c) == Configured(c)
  }

  predicate Liftable(s: Situation, spec: Spec) {
    Quarantined(s.state) != {} && Mismatched(s.state, spec.version) == {} && |s.state.healthy| >= QuorumSize(spec.memberCount)
  }

  /** There are all members, and no peers that should not be. */
  predicate Complete(s: Situation, spec: Spec) {
    |s.state.members| > 0 && |s.state.members| >= spec.memberCount && |Configured(s.state)| <= spec.memberCount
  }

  /** Only above the desired size, a peer without etcd could take the place of an unhealthy member. */
  predicate Replaceable(s: Situation, spec: Spec) {
    && |s.state.healthy| < |s.state.members| && Configured(s.state) != s.state.peers.Keys
    && |s.state.members| > 2 && |s.state.members| > spec.memberCount && s.acked >= QuorumSize(spec.memberCount)
  }

  /** When each branch is taken; otherwise nothing is done. */
  lemma WhenChosen(s: Situation)
    requires s.spec.Some?
    ensures var spec, d := s.spec.value, Choose(s);
            var q, n := QuorumSize(spec.memberCount), |s.state.members|;
            var stable := Running(s) && !Liftable(s, spec) && Uniform(s.state);
            && (d == CreateFirst <==> s.isNew && s.supported(spec.version) && s.acked >= q)
            && (d == RestoreBackup <==> !s.isNew && s.restoreQueued && s.supported(spec.version) && s.acked >= q)
            && (d == SetQuarantine(true) <==> Running(s) && !Liftable(s, spec) && !Uniform(s.state))
            && (d == SetQuarantine(false) <==> Running(s) && Liftable(s, spec) && s.acked >= q)
            && (d == AddNode <==> stable && 0 < n < spec.memberCount && s.acked >= QuorumSize(n))
            && (d == RemoveNode(true) <==>
                  && stable && n > 0 && n >= spec.memberCount && |Configured(s.state)| > spec.memberCount
                  && s.acked >= QuorumSize(|Configured(s.state)|))
            && (d == RemoveNode(false) <==> stable && Complete(s, spec) && Replaceable(s, spec))
            && (d == EnableTls <==> stable && Complete(s, spec) && !Replaceable(s, spec) && s.tlsPending)
            && (d == Fail <==> !s.supported(spec.version) || (stable && n == 0 < spec.memberCount))
  {
  }

  /** A mismatch is all that is left to do, and a quorum follows. */
  predicate UpgradeDue(s: Situation, spec: Spec) {
    && Running(s) && Uniform(s.state) && Complete(s, spec) && !Replaceable(s, spec) && !s.tlsPending
    && Mismatched(s.state, spec.version) != {} && s.acked >= QuorumSize(spec.memberCount)
  }

  /** An upgrade is chosen exactly if it is due, and it is made in place exactly if every peer of another version
      can be upgraded in place. */
  lemma WhenUpgrading(s: Situation)
    requires s.spec.Some?
    ensures var spec, d := s.spec.value, Choose(s);
            var misfit := exists p :: p in Mismatched(s.state, spec.version) && !s.inPlace(s.state.peers[p].value.version, spec.version);
            && (d == UpgradeInPlace <==> UpgradeDue(s, spec) && !misfit)
            && (d == StopForUpgrade <==> UpgradeDue(s, spec) && misfit)
  {
  }

  /** Progress: a complete and healthy cluster with nothing else to do is not left alone while a peer has another
      version: it is upgraded, by a dump exactly if some peer cannot be upgraded in place. */
  lemma MismatchIsActedOn(s: Situation, p: PeerId)
    requires Running(s) && Uniform(s.state) && !s.tlsPending && s.acked >= QuorumSize(s.spec.value.memberCount)
    requires |s.state.healthy| == |s.state.members| == s.spec.value.memberCount > 0 && |Configured(s.state)| <= s.spec.value.memberCount
    requires p in s.state.peers && s.state.peers[p].Some? && s.state.peers[p].value.version != s.spec.value.version
    ensures Choose(s) in {UpgradeInPlace, StopForUpgrade}
    ensures Choose(s) == StopForUpgrade <==>
            exists o :: o in s.state.peers && s.state.peers[o].Some? &&
                        var v := s.state.peers[o].value.version;
                        v != s.spec.value.version && !s.inPlace(v, s.spec.value.version)
  {
    WhenUpgrading(s);
  }

  lemma WhenDumping(s: Situation)
    requires Choose(s) == StopForUpgrade
    ensures s.spec.Some? && !CanUpgradeInPlace(s, s.spec.value.version)
  {
  }

  /** What the protocol asks of a cycle before it acts: a quorum of the desired size follows the leader for
      every choice but to quarantine, to enable TLS, or to add a node, and a quorum of the present size for
      adding one; the queue has no restore command unless that is what is chosen. */
  lemma EveryChoiceIsGated(s: Situation)
    requires s.spec.Some?
    ensures var d, q := Choose(s), QuorumSize(s.spec.value.memberCount);
            && (d !in {Nothing, Fail, EnableTls, SetQuarantine(true), AddNode} ==> s.acked >= q)
            && (d == AddNode ==> s.acked >= QuorumSize(|s.state.members|))
            && (d == CreateFirst ==> s.isNew)
            && (d == RestoreBackup ==> !s.isNew && s.restoreQueued)
            && (d !in {Nothing, Fail, CreateFirst, RestoreBackup} ==> !s.isNew && !s.restoreQueued)
  {
    if |Configured(s.state)| > s.spec.value.memberCount {
      QuorumMonotone(s.spec.value.memberCount, |Configured(s.state)|);
    }
  }

  /** Quarantine is lifted exactly when no restore command is in the cached queue and a quorum is healthy,
      of the desired version, and following the leader. */
  lemma WhenLifting(s: Situation)
    ensures Choose(s) == SetQuarantine(false) <==>
            && s.spec.Some? && !s.isNew && !s.restoreQueued && s.supported(s.spec.value.version)
            && Quarantined(s.state) != {} && Mismatched(s.state, s.spec.value.version) == {}
            && |s.state.healthy| >= QuorumSize(s.spec.value.memberCount)
            && s.acked >= QuorumSize(s.spec.value.memberCount)
  {
  }

  // ---------------------------------------------------------------- what can come of a choice

  /** An upgrade in place that is chosen for a complete cluster can reach each mismatched member, and leaves one
      machine fewer behind. */
  lemma UpgradeHappens(spec: Spec, s: Situation, w: World, p: PeerId) returns (w': World)
    requires s.spec == Some(spec) && Sees(w, s) && Choose(s) == UpgradeInPlace
    requires Upgradable(s.state, spec) && p in Mismatched(s.state, spec.version) && p in s.state.members.Values
    ensures Cycle(spec, s, w, w') && |Behind(spec, w')| == |Behind(spec, w)| - 1 && w'.nodes[p].version == spec.version
  {
    assert s.state.peers[p] == if p in w.nodes then Some(w.nodes[p]) else None;
    w' := w.(nodes := w.nodes[p := w.nodes[p].(version := spec.version)]);
    assert s.state.healthy == s.state.members.Keys by {
      assert |s.state.members.Keys| == |s.state.members|;
      SubsetSize(s.state.healthy, s.state.members.Keys);
    }
    assert Upgraded(s, spec, w, w', p);
    BehindDrops(spec, w, p);
  }

  /** A node that is added makes the cluster one larger and runs what some configured peer runs. */
  lemma AdditionHappens(spec: Spec, s: Situation, w: World, id: MemberId, joiner: PeerId, model: PeerId) returns (w': World)
    requires s.spec == Some(spec) && Sees(w, s) && Choose(s) == AddNode && |s.state.healthy| >= QuorumSize(|s.state.members|)
    requires id !in w.members && joiner in s.state.peers && s.state.peers[joiner].None?
    requires model in s.state.peers && s.state.peers[model].Some?
    ensures Cycle(spec, s, w, w') && |w'.members| == |w.members| + 1 && joiner in w'.nodes && !w'.nodes[joiner].quarantined
    ensures w'.nodes[joiner].version == s.state.peers[model].value.version
  {
    var info := s.state.peers[model].value;
    w' := World(w.members + {id}, w.nodes[joiner := EtcdInfo(info.token, false, info.version)]);
    assert Added(s, w, w', id, joiner, model);
  }

  /** A quarantine that is set or lifted can reach every peer that is configured. */
  lemma QuarantineHappens(spec: Spec, s: Situation, w: World) returns (w': World)
    requires s.spec == Some(spec) && Sees(w, s) && Choose(s).SetQuarantine?
    ensures Cycle(spec, s, w, w') && w'.nodes.Keys == w.nodes.Keys
    ensures forall p | p in Configured(s.state) :: p in w'.nodes && w'.nodes[p].quarantined == Choose(s).quarantined
  {
    var q := Choose(s).quarantined;
    w' := w.(nodes := map p | p in w.nodes :: if p in s.state.peers then w.nodes[p].(quarantined := q) else w.nodes[p]);
    assert Flagged(s, q, w, w');
    forall p | p in Configured(s.state) ensures p in w.nodes {
      assert s.state.peers[p] == if p in w.nodes then Some(w.nodes[p]) else None;
    }
  }

  /** A dump of a complete cluster can stop every machine. */
  lemma DumpHappens(spec: Spec, s: Situation, w: World)
    requires s.spec == Some(spec) && Sees(w, s) && Choose(s) == StopForUpgrade && Upgradable(s.state, spec)
    ensures Cycle(spec, s, w, w.(nodes := map[]))
  {
    assert Halted(s, spec, w, w.(nodes := map[]));
  }

  /** A recreation can bring every proposal of peers to the desired version. */
  lemma RecreationHappens(spec: Spec, s: Situation, w: World, members: set<MemberId>, plan: set<PeerId>, token: string) returns (w': World)
    requires s.spec == Some(spec) && Sees(w, s) && Choose(s) in {CreateFirst, RestoreBackup}
    requires EnoughPeers(|s.state.peers|, spec.memberCount) && plan <= s.state.peers.Keys
    requires |members| == ProposalSize(|s.state.peers|, spec.memberCount)
    ensures Cycle(spec, s, w, w') && w'.members == members && w'.nodes.Keys == plan
    ensures forall p | p in plan :: w'.nodes[p] == EtcdInfo(token, true, spec.version)
  {
    w' := World(members, map p | p in plan :: EtcdInfo(token, true, spec.version));
    assert Recreated(s, spec, w, w');
  }

  // ---------------------------------------------------------------- the number of members

  predicate RightSize(spec: Spec, w: World) {
    |w.members| in {spec.memberCount - 1, spec.memberCount}
  }

  /** A cycle leaves a cluster of the right size at the right size, and founds only such clusters. */
  lemma CycleKeepsSize(spec: Spec, s: Situation, w: World, w': World)
    requires spec.memberCount >= 1 && Cycle(spec, s, w, w')
    requires w.members == {} || RightSize(spec, w)
    ensures (w.members == {} && w'.members == {}) || RightSize(spec, w')
  {
    var d := Choose(s);
    if w'.members != w.members {
      if d in {CreateFirst, RestoreBackup} {
        ProposalKeepsQuorum(|s.state.peers|, spec.memberCount);
      } else if d == AddNode {
        WhenAdding(s);
        SameSize(w, s);
      } else {
        WhenRemoving(s);
        SameSize(w, s);
      }
    }
  }

  lemma SameSize(w: World, s: Situation)
    requires Sees(w, s) && |s.state.members| > 0
    ensures |s.state.members| == |w.members|
  {
    assert |s.state.members.Keys| == |s.state.members|;
  }

  lemma {:induction false} EmptyOrRightSize(spec: Spec, worlds: seq<World>, cycles: seq<Situation>, i: nat)
    requires spec.memberCount >= 1 && Run(spec, worlds, cycles) && i < |worlds| && worlds[0].members == {}
    ensures worlds[i].members == {} || RightSize(spec, worlds[i])
  {
    hide Cycle;
    if i > 0 {
      EmptyOrRightSize(spec, worlds, cycles, i - 1);
      CycleKeepsSize(spec, cycles[i - 1], worlds[i - 1], worlds[i]);
    }
  }

  /** From the moment there is a cluster on, it has the desired number of members or one fewer, in every
      run. */
  lemma {:induction false} MemberCountIsBounded(spec: Spec, worlds: seq<World>, cycles: seq<Situation>, j: nat, i: nat)
    requires spec.memberCount >= 1 && Run(spec, worlds, cycles) && j <= i < |worlds|
    requires worlds[0].members == {} && worlds[j].members != {}
    ensures RightSize(spec, worlds[i])
    decreases i
  {
    hide Cycle;
    if i == j {
      EmptyOrRightSize(spec, worlds, cycles, i);
    } else {
      MemberCountIsBounded(spec, worlds, cycles, j, i - 1);
      CycleKeepsSize(spec, cycles[i - 1], worlds[i - 1], worlds[i]);
    }
  }

  /** So no run removes a member for being unhealthy: the code does that only above the desired size. */
  lemma UnhealthyMembersStay(spec: Spec, worlds: seq<World>, cycles: seq<Situation>, i: nat)
    requires spec.memberCount >= 1 && Run(spec, worlds, cycles) && i < |cycles| && worlds[0].members == {}
    ensures Choose(cycles[i]) != RemoveNode(false)
  {
    EmptyOrRightSize(spec, worlds, cycles, i);
    var s := cycles[i];
    assert Cycle(spec, s, worlds[i], worlds[i + 1]);
    if Choose(s) == RemoveNode(false) {
      AboveSize(s);
      SameSize(worlds[i], s);
    }
  }

  lemma AboveSize(s: Situation)
    requires Choose(s) == RemoveNode(false)
    ensures s.spec.Some? && |s.state.members| > s.spec.value.memberCount
  {
  }

  // ---------------------------------------------------------------- quarantine

  /** A configured machine that stays configured loses its quarantine only in a cycle that has a quorum
      behind it and no restore command in its queue. */
  lemma OnlyLiftingClears(spec: Spec, s: Situation, w: World, w': World, p: PeerId)
    requires Cycle(spec, s, w, w')
    requires p in w.nodes && p in w'.nodes && w.nodes[p].quarantined && !w'.nodes[p].quarantined
    ensures !s.restoreQueued && !s.isNew && Mismatched(s.state, spec.version) == {}
    ensures |s.state.healthy| >= QuorumSize(spec.memberCount) && s.acked >= QuorumSize(spec.memberCount)
  {
    WhenLifting(s);
  }

  // ---------------------------------------------------------------- rolling upgrades

  function Behind(spec: Spec, w: World): set<PeerId> {
    set p | p in w.nodes && w.nodes[p].version != spec.version
  }

  /** An in-place upgrade restarts one machine. It gets the desired version and nothing else changes. */
  lemma UpgradeIsRolling(spec: Spec, s: Situation, w: World, w': World, p: PeerId)
    requires Sees(w, s) && Upgraded(s, spec, w, w', p)
    ensures Behind(spec, w') == Behind(spec, w) - {p} && |Behind(spec, w')| == |Behind(spec, w)| - 1
    ensures w'.nodes.Keys == w.nodes.Keys && (forall o | o in w.nodes && o != p :: w'.nodes[o] == w.nodes[o])
    ensures w'.nodes[p] == w.nodes[p].(version := spec.version)
  {
    assert s.state.peers[p] == Some(w.nodes[p]);
    BehindDrops(spec, w, p);
  }

  /** The other members are healthy, and they are still a quorum exactly if the cluster has at least three
      members. */
  lemma UpgradeLeavesQuorum(spec: Spec, s: Situation, w: World, w': World, p: PeerId, id: MemberId)
    requires Upgraded(s, spec, w, w', p) && id in s.state.members && s.state.members[id] == p
    ensures s.state.members.Keys - {id} <= s.state.healthy
    ensures |s.state.healthy - {id}| >= QuorumSize(|s.state.members|) <==> |s.state.members| >= 3
  {
    OthersAreQuorum(s.state, id);
  }

  lemma BehindDrops(spec: Spec, w: World, p: PeerId)
    requires p in w.nodes && w.nodes[p].version != spec.version
    ensures var w' := w.(nodes := w.nodes[p := w.nodes[p].(version := spec.version)]);
            Behind(spec, w') == Behind(spec, w) - {p} && |Behind(spec, w')| == |Behind(spec, w)| - 1
  {
    var w' := w.(nodes := w.nodes[p := w.nodes[p].(version := spec.version)]);
    assert p in Behind(spec, w) && Behind(spec, w') == Behind(spec, w) - {p};
  }

  lemma OthersAreQuorum(c: ClusterState, id: MemberId)
    requires c.healthy == c.members.Keys && id in c.members
    ensures |c.healthy - {id}| >= QuorumSize(|c.members|) <==> |c.members| >= 3
  {
    assert |c.members.Keys| == |c.members|;
    assert |c.healthy - {id}| == |c.members| - 1;
  }

  /** Whatever versions there are: in a cycle that does not recreate the cluster, a machine that stays configured
      changes its version only to one that it can be upgraded to in place. */
  lemma VersionsStepInPlace(spec: Spec, s: Situation, w: World, w': World, p: PeerId)
    requires Cycle(spec, s, w, w') && Choose(s) !in {CreateFirst, RestoreBackup} && p in w.nodes && p in w'.nodes
    ensures w'.nodes[p].version != w.nodes[p].version ==>
              w'.nodes[p].version == spec.version && s.inPlace(w.nodes[p].version, spec.version)
  {
    WhenUpgrading(s);
    hide Choose;
    if w'.nodes[p].version != w.nodes[p].version {
      if Choose(s) == UpgradeInPlace {
        var o :| Upgraded(s, spec, w, w', o);
        assert o == p && p in Mismatched(s.state, spec.version);
      }
    }
  }

  /** Over every run: from recreation to recreation a machine that stays configured keeps its version, or was
      upgraded once, in place, to the desired one. */
  lemma {:induction false} UpgradedOnceInPlace(spec: Spec, inPlace: (string, string) -> bool, worlds: seq<World>,
                                               cycles: seq<Situation>, i: nat, j: nat, p: PeerId)
    requires Run(spec, worlds, cycles) && i <= j < |worlds|
    requires forall k | i <= k < j :: Choose(cycles[k]) !in {CreateFirst, RestoreBackup} && cycles[k].inPlace == inPlace
    requires forall k | i <= k <= j :: p in worlds[k].nodes
    ensures var v, u := worlds[i].nodes[p].version, worlds[j].nodes[p].version;
            u == v || (u == spec.version && inPlace(v, u))
  {
    hide Choose, Cycle;
    if i < j {
      UpgradedOnceInPlace(spec, inPlace, worlds, cycles, i, j - 1, p);
      VersionsStepInPlace(spec, cycles[j - 1], worlds[j - 1], worlds[j], p);
    }
  }

  /** Every machine runs the desired version or one that can be upgraded to it in place. */
  predicate Close(spec: Spec, inPlace: (string, string) -> bool, w: World) {
    forall p | p in w.nodes :: w.nodes[p].version == spec.version || inPlace(w.nodes[p].version, spec.version)
  }

  lemma CycleKeepsClose(spec: Spec, s: Situation, w: World, w': World)
    requires Cycle(spec, s, w, w') && Close(spec, s.inPlace, w)
    ensures Close(spec, s.inPlace, w') && Choose(s) != StopForUpgrade
  {
    hide Choose;
    if Choose(s) == StopForUpgrade {
      WhenDumping(s);
    }
  }

  /** While every machine can be upgraded in place, the cluster is never dumped and recreated, and all
      versions stay within reach of the desired one: over any run. */
  lemma {:induction false} NeverDumped(spec: Spec, inPlace: (string, string) -> bool, worlds: seq<World>, cycles: seq<Situation>, i: nat)
    requires Run(spec, worlds, cycles) && forall j | 0 <= j < |cycles| :: cycles[j].inPlace == inPlace
    requires Close(spec, inPlace, worlds[0]) && i < |worlds|
    ensures Close(spec, inPlace, worlds[i])
    ensures i < |cycles| ==> Choose(cycles[i]) != StopForUpgrade
  {
    if i > 0 {
      NeverDumped(spec, inPlace, worlds, cycles, i - 1);
      CycleKeepsClose(spec, cycles[i - 1], worlds[i - 1], worlds[i]);
    }
    if i < |cycles| {
      CycleKeepsClose(spec, cycles[i], worlds[i], worlds[i + 1]);
    }
  }

  /** With the rule the controller uses: all machines stay at the desired version, or at the same or the
      preceding minor version of etcd 3. */
  lemma VersionsStayClose(spec: Spec, parse: string -> Option<Semver>, inPlace: (string, string) -> bool,
                          worlds: seq<World>, cycles: seq<Situation>, i: nat, p: PeerId)
    requires forall a, b :: inPlace(a, b) == UpgradeInPlaceSupported(parse(a), parse(b))
    requires forall a :: parse(a).Some? ==> parse(a).value.Fits()
    requires Run(spec, worlds, cycles) && forall j | 0 <= j < |cycles| :: cycles[j].inPlace == inPlace
    requires Close(spec, inPlace, worlds[0]) && i < |worlds| && p in worlds[i].nodes
    ensures var v, target := worlds[i].nodes[p].version, spec.version;
            v != target ==>
              && parse(v).Some? && parse(target).Some? && parse(v).value.major == 3 == parse(target).value.major
              && 0 <= parse(target).value.minor - parse(v).value.minor <= 1
  {
    NeverDumped(spec, inPlace, worlds, cycles, i);
    SupportedSteps(parse(worlds[i].nodes[p].version), parse(spec.version));
  }

  /** How many machines a cycle has upgraded, and how many it has added. */
  ghost function Upgrades(spec: Spec, s: Situation, w: World, w': World): nat {
    if w' != w && Choose(s) == UpgradeInPlace then 1 else 0
  }

  ghost function Joins(s: Situation, w: World, w': World): nat {
    if w'.nodes != w.nodes && Choose(s) == AddNode then 1 else 0
  }

  lemma CycleBalance(spec: Spec, s: Situation, w: World, w': World)
    requires Cycle(spec, s, w, w')
    ensures |Behind(spec, w')| + Upgrades(spec, s, w, w') <= |Behind(spec, w)| + Joins(s, w, w')
  {
    hide Choose;
    var b, b' := Behind(spec, w), Behind(spec, w');
    if Choose(s) == UpgradeInPlace && w' != w {
      var p :| Upgraded(s, spec, w, w', p);
      UpgradeIsRolling(spec, s, w, w', p);
    } else if Choose(s) == AddNode && w' != w {
      var id, joiner, model :| Added(s, w, w', id, joiner, model);
      SubsetSize(b', b + {joiner});
    } else {
      SubsetSize(b', b);
    }
  }

  ghost function Total(spec: Spec, worlds: seq<World>, cycles: seq<Situation>, i: nat, upgrades: bool): nat
    requires i <= |cycles| && |worlds| == |cycles| + 1
  {
    if i == 0 then 0
    else Total(spec, worlds, cycles, i - 1, upgrades) +
         if upgrades then Upgrades(spec, cycles[i - 1], worlds[i - 1], worlds[i])
         else Joins(cycles[i - 1], worlds[i - 1], worlds[i])
  }

  /** No machine is upgraded twice: over a run, the machines still behind and the upgrades made are no more
      than the machines behind at the start and those that joined. */
  lemma {:induction false} UpgradesAreBounded(spec: Spec, worlds: seq<World>, cycles: seq<Situation>, i: nat)
    requires Run(spec, worlds, cycles) && i <= |cycles|
    ensures |Behind(spec, worlds[i])| + Total(spec, worlds, cycles, i, true)
            <= |Behind(spec, worlds[0])| + Total(spec, worlds, cycles, i, false)
  {
    if i > 0 {
      UpgradesAreBounded(spec, worlds, cycles, i - 1);
      CycleBalance(spec, cycles[i - 1], worlds[i - 1], worlds[i]);
    }
  }
}
