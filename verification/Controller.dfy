/** The leader's side: holding the leadership, watching members, and choosing what to do in a cycle. */
module Controller {
  import opened Options
  import opened Sets
  import opened Quorum

  type PeerId = string
  type MemberId = string

  const MINUTE: int := 60 * 1000000000
  const REMOVE_UNHEALTHY_DEADLINE: int := MINUTE

  // ---------------------------------------------------------------- what a cycle sees

  /** What a peer reports: the etcd it is configured for. */
  datatype EtcdInfo = EtcdInfo(token: string, quarantined: bool, version: string)

  /** The peers with their reports, etcd's members with their names, and the members that answer. */
  datatype ClusterState = ClusterState(
    peers: map<PeerId, Option<EtcdInfo>>, members: map<MemberId, string>, healthy: set<MemberId>)

  datatype Spec = Spec(memberCount: nat, version: string)

  /** Everything the choice depends on: the peers that accepted the leader, the control store's marker
      and specification, whether the cached queue has a restore command, and which versions are known
      and can be upgraded in place. */
  datatype Situation = Situation(
    state: ClusterState, acked: nat, isNew: bool, spec: Option<Spec>, restoreQueued: bool, tlsPending: bool,
    supported: string -> bool, inPlace: (string, string) -> bool)

  datatype Decision =
    | Nothing
    | Fail
    | CreateFirst
    | RestoreBackup
    | SetQuarantine(quarantined: bool)
    | AddNode
    | RemoveNode(removeHealthy: bool)
    | EnableTls
    | UpgradeInPlace
    | StopForUpgrade

  function Configured(c: ClusterState): set<PeerId> {
    set p | p in c.peers && c.peers[p].Some?
  }

  function Quarantined(c: ClusterState): set<PeerId> {
    set p | p in c.peers && c.peers[p].Some? && c.peers[p].value.quarantined
  }

  function Mismatched(c: ClusterState, version: string): set<PeerId> {
    set p | p in c.peers && c.peers[p].Some? && c.peers[p].value.version != version
  }

  predicate CanUpgradeInPlace(s: Situation, version: string) {
    forall p | p in Mismatched(s.state, version) :: s.inPlace(s.state.peers[p].value.version, version)
  }

  // ---------------------------------------------------------------- the choice

  function Choose(s: Situation): Decision {
    if s.spec.None? then Nothing
    else if s.isNew then
      if !s.supported(s.spec.value.version) then Fail
      else if s.acked < QuorumSize(s.spec.value.memberCount) then Nothing
      else CreateFirst
    else if !s.supported(s.spec.value.version) then Fail
    else if s.restoreQueued then
      if s.acked < QuorumSize(s.spec.value.memberCount) then Nothing else RestoreBackup
    else ChooseRunning(s, s.spec.value)
  }

  function ChooseRunning(s: Situation, spec: Spec): Decision {
    var q := QuorumSize(spec.memberCount);
    if Quarantined(s.state) != {} && |s.state.healthy| >= q && Mismatched(s.state, spec.version) == {} then
      if s.acked >= q then SetQuarantine(false) else Nothing
    else if Quarantined(s.state) != {} && Quarantined(s.state) != Configured(s.state) then SetQuarantine(true)
    else ChooseSize(s, spec)
  }

  function ChooseSize(s: Situation, spec: Spec): Decision {
    var n := |s.state.members|;
    if n < spec.memberCount then
      if n == 0 then Fail
      else if s.acked >= QuorumSize(n) then AddNode else Nothing
    else if n == 0 then Nothing
    else if |Configured(s.state)| > spec.memberCount then
      if s.acked >= QuorumSize(|Configured(s.state)|) then RemoveNode(true) else Nothing
    else if |s.state.healthy| < n && Configured(s.state) != s.state.peers.Keys
            && n > 2 && n > spec.memberCount && s.acked >= QuorumSize(spec.memberCount) then RemoveNode(false)
    else if s.tlsPending then EnableTls
    else if Mismatched(s.state, spec.version) == {} then Nothing
    else if s.acked < QuorumSize(spec.memberCount) then Nothing
    else if CanUpgradeInPlace(s, spec.version) then UpgradeInPlace
    else StopForUpgrade
  }

  /** The counters of a cycle, in one pass over the peers. */
  method CountMembers(c: ClusterState) returns (configured: nat, quarantined: nat, nonQuarantined: nat)
    ensures configured == |Configured(c)| && quarantined == |Quarantined(c)|
    ensures nonQuarantined == |Configured(c) - Quarantined(c)|
  {
    configured, quarantined, nonQuarantined := 0, 0, 0;
    var todo := c.peers.Keys;
    NoneLeft(Configured(c), todo);
    NoneLeft(Quarantined(c), todo);
    while todo != {}
      invariant todo <= c.peers.Keys && configured == quarantined + nonQuarantined
      invariant configured == |Configured(c) - todo| && quarantined == |Quarantined(c) - todo|
      decreases todo
    {
      var p := Pick(todo);
      CountOne(Configured(c), todo, p);
      CountOne(Quarantined(c), todo, p);
      if c.peers[p].Some? {
        configured := configured + 1;
        if c.peers[p].value.quarantined {
          quarantined := quarantined + 1;
        } else {
          nonQuarantined := nonQuarantined + 1;
        }
      }
      todo := todo - {p};
    }
    NoneTaken(Configured(c), todo);
    NoneTaken(Quarantined(c), todo);
    assert Configured(c) == Quarantined(c) + (Configured(c) - Quarantined(c));
  }

  lemma NoneLeft(s: set<PeerId>, todo: set<PeerId>)
    requires s <= todo
    ensures |s - todo| == 0
  {
    assert s - todo == {};
  }

  lemma NoneTaken(s: set<PeerId>, todo: set<PeerId>)
    requires todo == {}
    ensures s - todo == s
  {
  }

  lemma CountOne(s: set<PeerId>, todo: set<PeerId>, p: PeerId)
    requires p in todo
    ensures |s - (todo - {p})| == |s - todo| + if p in s then 1 else 0
  {
    if p in s {
      assert s - (todo - {p}) == s - todo + {p};
    } else {
      assert s - (todo - {p}) == s - todo;
    }
  }

  method FindMismatches(s: Situation, version: string) returns (mismatch: set<PeerId>, canUpgradeInPlace: bool)
    ensures mismatch == Mismatched(s.state, version) && canUpgradeInPlace == CanUpgradeInPlace(s, version)
  {
    mismatch, canUpgradeInPlace := {}, true;
    var todo := s.state.peers.Keys;
    while todo != {}
      invariant todo <= s.state.peers.Keys
      invariant mismatch == Mismatched(s.state, version) - todo
      invariant canUpgradeInPlace <==> forall p | p in mismatch :: s.inPlace(s.state.peers[p].value.version, version)
      decreases todo
    {
      var p := Pick(todo);
      var info := s.state.peers[p];
      if info.Some? && info.value.version != version {
        mismatch := mismatch + {p};
        if !s.inPlace(info.value.version, version) {
          canUpgradeInPlace := false;
        }
      }
      todo := todo - {p};
    }
  }

  /** One pass through the branches of a cycle. */
  method Run(s: Situation) returns (d: Decision)
    ensures d == Choose(s)
  {
    var configured, quarantined, nonQuarantined := CountMembers(s.state);
    CountsAsSets(s.state);
    if s.isNew {
      if s.spec.Some? {
        if !s.supported(s.spec.value.version) {
          return Fail;
        }
        if s.acked < QuorumSize(s.spec.value.memberCount) {
          return Nothing;
        }
        return CreateFirst;
      }
    }
    if s.spec.None? {
      return Nothing;
    }
    var spec := s.spec.value;
    var desiredQuorumSize := QuorumSize(spec.memberCount);
    if s.restoreQueued {
      if !s.supported(spec.version) {
        return Fail;
      }
      if s.acked < desiredQuorumSize {
        return Nothing;
      }
      return RestoreBackup;
    }
    if !s.supported(spec.version) {
      return Fail;
    }
    var mismatch, canUpgradeInPlace := FindMismatches(s, spec.version);
    if quarantined > 0 {
      if |s.state.healthy| >= desiredQuorumSize && |mismatch| == 0 {
        if s.acked >= desiredQuorumSize {
          return SetQuarantine(false);
        }
        return Nothing;
      }
      if nonQuarantined > 0 {
        return SetQuarantine(true);
      }
    }
    var n := |s.state.members|;
    if n < spec.memberCount {
      if n == 0 {
        return Fail;
      }
      if s.acked >= QuorumSize(n) {
        return AddNode;
      }
      return Nothing;
    }
    if n == 0 {
      return Nothing;
    }
    if configured > spec.memberCount {
      if s.acked >= QuorumSize(configured) {
        return RemoveNode(true);
      }
      return Nothing;
    }
    if |s.state.healthy| < n {
      var idlePeers := set p | p in s.state.peers && s.state.peers[p].None?;
      if |idlePeers| == 0 {
      } else if n <= 2 {
      } else if n <= spec.memberCount {
      } else if s.acked < desiredQuorumSize {
      } else {
        return RemoveNode(false);
      }
    }
    if s.tlsPending {
      return EnableTls;
    }
    if |mismatch| != 0 {
      if s.acked >= desiredQuorumSize {
        if canUpgradeInPlace {
          return UpgradeInPlace;
        }
        return StopForUpgrade;
      }
      return Nothing;
    }
    return Nothing;
  }

  lemma CountsAsSets(c: ClusterState)
    ensures |Quarantined(c)| > 0 <==> Quarantined(c) != {}
    ensures |Configured(c) - Quarantined(c)| > 0 <==> Quarantined(c) != Configured(c)
    ensures |set p | p in c.peers && c.peers[p].None?| == 0 <==> Configured(c) == c.peers.Keys
  {
    assert Quarantined(c) <= Configured(c);
    var idle := set p | p in c.peers && c.peers[p].None?;
    assert Configured(c) == c.peers.Keys - idle;
    assert |idle| == 0 <==> idle == {};
    assert |Configured(c) - Quarantined(c)| > 0 <==> Configured(c) - Quarantined(c) != {};
  }

  // ---------------------------------------------------------------- creating a cluster

  /** The peers to form a new cluster from, if there are enough. */
  method Propose(peers: set<PeerId>, desired: nat) returns (proposal: Option<set<PeerId>>)
    ensures proposal.Some? <==> EnoughPeers(|peers|, desired)
    ensures proposal.Some? ==> proposal.value <= peers && |proposal.value| == ProposalSize(|peers|, desired)
    ensures proposal.Some? && desired >= 1 ==>
              |proposal.value| in {desired - 1, desired} && QuorumSize(|proposal.value|) == QuorumSize(desired)
  {
    if |peers| < QuorumSize(desired) {
      return None;
    }
    if |peers| < desired {
      if QuorumSize(|peers|) != QuorumSize(desired) {
        return None;
      }
    }
    var chosen: set<PeerId> := {};
    var todo := peers;
    while todo != {}
      invariant todo <= peers && chosen == peers - todo && (desired == 0 || |chosen| < desired)
      decreases todo
    {
      var p := Pick(todo);
      CountOne(peers, todo, p);
      chosen := chosen + {p};
      todo := todo - {p};
      assert chosen == peers - todo;
      if |chosen| == desired {
        break;
      }
    }
    SubsetSize(chosen, peers);
    if desired >= 1 {
      ProposalKeepsQuorum(|peers|, desired);
    }
    // The stop of the source for want of dummy peers is never reached.
    assert !(|chosen| < desired && QuorumSize(|chosen|) < QuorumSize(desired));
    return Some(chosen);
  }

  // ---------------------------------------------------------------- upgrading in place

  predicate Upgradable(c: ClusterState, spec: Spec) {
    && (forall m | m in c.members :: c.members[m] in c.peers)
    && |c.healthy| == |c.members| == spec.memberCount
  }

  /** The test before an upgrade: every member is a peer, all are healthy, and the cluster is complete. */
  method PrepareForUpgrade(c: ClusterState, spec: Spec) returns (memberToPeer: Option<map<MemberId, PeerId>>)
    requires c.healthy <= c.members.Keys
    ensures memberToPeer.Some? <==> Upgradable(c, spec)
    ensures memberToPeer.Some? ==> memberToPeer.value == c.members && c.healthy == c.members.Keys
  {
    var found: map<MemberId, PeerId> := map[];
    var todo := c.members.Keys;
    while todo != {}
      invariant todo <= c.members.Keys && found.Keys == c.members.Keys - todo
      invariant forall m | m in found :: found[m] == c.members[m] && c.members[m] in c.peers
      decreases todo
    {
      var m := Pick(todo);
      if c.members[m] !in c.peers {
        return None;
      }
      found := found[m := c.members[m]];
      todo := todo - {m};
    }
    if |c.healthy| != |c.members| {
      return None;
    }
    if |c.members| != spec.memberCount {
      return None;
    }
    SubsetSize(c.healthy, c.members.Keys);
    assert |c.members.Keys| == |c.members|;
    return Some(found);
  }

  /** The one peer that an in-place upgrade reconfigures in this cycle, if the cycle gets that far:
      `backedUp` says that the backup before it succeeded. */
  method ChooseUpgrade(c: ClusterState, spec: Spec, backedUp: bool) returns (p: Option<PeerId>)
    requires c.healthy <= c.members.Keys
    ensures p.Some? ==>
              && Upgradable(c, spec) && c.healthy == c.members.Keys
              && p.value in Mismatched(c, spec.version) && p.value in c.members.Values
    ensures p.None? && Upgradable(c, spec) && backedUp && (forall m | m in c.members :: c.peers[c.members[m]].Some?) ==>
              Mismatched(c, spec.version) * c.members.Values == {}
  {
    var memberToPeer := PrepareForUpgrade(c, spec);
    if memberToPeer.None? {
      return None;
    }
    var todo := c.members.Keys;
    while todo != {}
      invariant todo <= c.members.Keys
      invariant forall m | m in c.members && m !in todo :: c.peers[c.members[m]].Some?
      decreases todo
    {
      var m := Pick(todo);
      if c.peers[memberToPeer.value[m]].None? {
        return None;
      }
      todo := todo - {m};
    }
    if !backedUp {
      return None;
    }
    todo := c.members.Keys;
    while todo != {}
      invariant todo <= c.members.Keys
      invariant forall m | m in c.members && m !in todo :: c.members[m] !in Mismatched(c, spec.version)
      decreases todo
    {
      var m := Pick(todo);
      var peer := memberToPeer.value[m];
      todo := todo - {m};
      if c.peers[peer].value.version == spec.version {
        continue;
      }
      return Some(peer);
    }
    return None;
  }
}
