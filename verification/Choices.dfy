/** The protocol's choices are the controller's: a cycle of the protocol can choose a branch exactly if the
    controller does on what it has seen. */
module Choices {
  import opened Options
  import opened Quorum
  import opened Sets
  import P = Protocol
  import C = Controller
  import F = Fleet

  // ---------------------------------------------------------------- what a cycle has seen

  /** The situation tells the controller what the survey of e found. */
  ghost predicate Tells(env: P.Env, s: P.Sys, e: P.Epoch, sit: C.Situation) {
    && P.At(s, e) && sit.spec.Some? && sit.spec.value.memberCount == env.memberCount
    && var c, st := s.cycles[e], sit.state;
       && sit.acked == |c.view| && sit.isNew == !s.created && sit.restoreQueued == (s.caches[c.owner] != [])
       && |C.Configured(st)| == |c.view - c.idle|
       && (C.Quarantined(st) == {} <==> c.flagged == {})
       && (C.Quarantined(st) == C.Configured(st) <==> c.flagged == c.view - c.idle)
       && (C.Mismatched(st, sit.spec.value.version) == {} <==> !c.mismatch)
       && |st.members| == (if P.Observes(s, e) then |s.clusters[c.obs.value].members| else 0)
       && (|st.healthy| >= env.Q() <==> c.ready) && (C.Upgradable(st, sit.spec.value) <==> c.full)
  }

  predicate Knows(sit: C.Situation) {
    sit.spec.Some? && sit.supported(sit.spec.value.version)
  }

  // ---------------------------------------------------------------- the branches

  /** Quarantine is lifted. */
  lemma LiftIsChosen(env: P.Env, s: P.Sys, e: P.Epoch, sit: C.Situation)
    requires Tells(env, s, e, sit) && s.cycles[e].pc.Surveyed? && Knows(sit)
    ensures P.CanStep(env, s, P.ChooseLift(e)) <==> C.Choose(sit) == C.SetQuarantine(false)
  {
    F.WhenChosen(sit);
    hide C.Choose;
  }

  /** A cluster is created, the first one or one to restore into. */
  lemma CreateIsChosen(env: P.Env, s: P.Sys, e: P.Epoch, sit: C.Situation)
    requires Tells(env, s, e, sit) && s.cycles[e].pc.Surveyed? && Knows(sit)
    ensures (exists t, plan :: P.CanStep(env, s, P.ChooseCreate(e, t, plan))) <==>
            C.Choose(sit) in {C.CreateFirst, C.RestoreBackup} && EnoughPeers(|s.cycles[e].view|, env.memberCount)
  {
    F.WhenChosen(sit);
    hide C.Choose, Tells;
    var size := ProposalSize(|s.cycles[e].view|, env.memberCount);
    if EnoughPeers(|s.cycles[e].view|, env.memberCount) && (s.created ==> s.caches[s.cycles[e].owner] != []) {
      var plan := Part(s.cycles[e].view, size);
      var t := Unused(s.clusters.Keys);
      assert P.CanStep(env, s, P.ChooseCreate(e, t, plan));
    }
  }

  /** A backup is restored into the standing cluster. */
  lemma RestoreIsChosen(env: P.Env, s: P.Sys, e: P.Epoch, sit: C.Situation)
    requires Tells(env, s, e, sit) && s.cycles[e].pc.Surveyed? && Knows(sit)
    ensures P.CanStep(env, s, P.ChooseRestore(e)) <==>
            C.Choose(sit) == C.RestoreBackup && !EnoughPeers(|s.cycles[e].view|, env.memberCount) && P.Observes(s, e)
  {
    F.WhenChosen(sit);
    hide C.Choose;
  }

  /** The cluster is dumped: by the controller only if some peer cannot be upgraded in place, and nothing that goes
      before that is due. */
  lemma UpgradeIsChosen(env: P.Env, s: P.Sys, e: P.Epoch, sit: C.Situation)
    requires Tells(env, s, e, sit) && s.cycles[e].pc.Surveyed? && Knows(sit) && env.memberCount > 0 && P.Observes(s, e)
    ensures C.Choose(sit) == C.StopForUpgrade && C.Upgradable(sit.state, sit.spec.value) <==>
            && P.CanStep(env, s, P.ChooseUpgrade(e)) && !C.CanUpgradeInPlace(sit, sit.spec.value.version)
            && !sit.tlsPending && |s.cycles[e].view - s.cycles[e].idle| <= env.memberCount
  {
    F.WhenUpgrading(sit);
    hide C.Choose;
  }

  /** A machine without etcd is added. */
  lemma ExpandIsChosen(env: P.Env, s: P.Sys, e: P.Epoch, m: P.Node, sit: C.Situation)
    requires Tells(env, s, e, sit) && s.cycles[e].pc.Surveyed? && Knows(sit)
    requires P.Observes(s, e) && s.clusters[s.cycles[e].obs.value].members != {}
    ensures P.CanStep(env, s, P.ChooseExpand(e, m)) <==> C.Choose(sit) == C.AddNode && m in s.cycles[e].idle
  {
    F.WhenChosen(sit);
    hide C.Choose;
    var members := s.clusters[s.cycles[e].obs.value].members;
    assert |members| > 0;
  }

  /** What depends on no survey: a controller is elected, resigns and reads the queue whenever it likes, and ends its
      cycle at any point; in office and between cycles it can start one over any machines of which it is
      the lowest; each of them may accept it; and a client can put and delete at
      every open member that runs, if a quorum does. */
  lemma NothingElseIsNeeded(env: P.Env, s: P.Sys, n: P.Node, view: set<P.Node>, e: P.Epoch, k: string, v: Option<string>)
    ensures n in env.nodes ==>
              P.Guard(env, s, P.Locally(P.Elect(n))) && P.Guard(env, s, P.Locally(P.Resign(n))) && P.Guard(env, s, P.Locally(P.Refresh(n)))
    ensures P.Guard(env, s, P.Controller(P.Start(n, view))) <==>
            && n in s.leading && n in view && view <= env.nodes && (forall m | m in view :: n <= m)
            && forall f | f in s.cycles :: s.cycles[f].owner != n
    ensures e in s.cycles ==> P.Guard(env, s, P.Controller(P.End(e)))
    ensures e in s.cycles && s.cycles[e].pc.Asserting? && n in s.cycles[e].pc.unasked ==> P.Guard(env, s, P.Controller(P.Assert(e, n)))
    ensures P.Guard(env, s, P.Locally(P.ClientWrite(n, k, v))) <==>
            && n in s.cfg && n in s.up && !s.cfg[n].quarantined && s.cfg[n].token in s.clusters
            && var t := s.cfg[n].token;
               && n in s.clusters[t].members
               && |set m | m in s.cfg && s.cfg[m].token == t && m in s.up && m in s.clusters[t].members| >= QuorumSize(|s.clusters[t].members|)
  {
    if n in s.cfg && s.cfg[n].token in s.clusters {
      var t := s.cfg[n].token;
      assert P.Running(s, t) == set m | m in s.cfg && s.cfg[m].token == t && m in s.up && m in s.clusters[t].members;
    }
  }

  /** Some elements of a set. */
  lemma {:induction false} Part(all: set<P.Node>, size: nat) returns (part: set<P.Node>)
    requires size <= |all|
    ensures part <= all && |part| == size
  {
    if size == 0 {
      part := {};
    } else {
      var x := Any(all);
      part := Part(all - {x}, size - 1);
      part := part + {x};
    }
  }

  lemma {:induction false} Above(used: set<P.Token>) returns (t: P.Token)
    ensures forall u | u in used :: u < t
  {
    if used == {} {
      t := 0;
    } else {
      var u := Any(used);
      t := Above(used - {u});
      assert used == used - {u} + {u};
      if u >= t { t := u + 1; }
    }
  }

  lemma Unused(used: set<P.Token>) returns (t: P.Token)
    ensures t !in used
  {
    t := Above(used);
  }

  // ---------------------------------------------------------------- there is such a situation

  ghost predicate Injective(name: P.Node -> string) {
    forall a, b | name(a) == name(b) :: a == b
  }

  function Names(name: P.Node -> string, nodes: set<P.Node>): set<string> {
    set n | n in nodes :: name(n)
  }

  lemma {:induction false} NamesSize(name: P.Node -> string, nodes: set<P.Node>)
    requires Injective(name)
    ensures |Names(name, nodes)| == |nodes|
  {
    if nodes != {} {
      var n := Any(nodes);
      NamesSize(name, nodes - {n});
      assert Names(name, nodes) == Names(name, nodes - {n}) + {name(n)};
    }
  }

  /** What the controller is told about a peer. */
  function Report(c: P.Cycle, n: P.Node, version: string): Option<C.EtcdInfo> {
    if n in c.idle then None else Some(C.EtcdInfo("", n in c.flagged, if c.mismatch then version + "x" else version))
  }

  ghost function Told(name: P.Node -> string, c: P.Cycle, members: set<P.Node>, healthy: set<P.Node>, version: string): C.ClusterState
    requires Injective(name)
  {
    C.ClusterState(map n | n in c.view :: name(n) := Report(c, n, version),
                   map n | n in members :: name(n) := name(n),
                   Names(name, healthy))
  }

  /** The members of the observed cluster, and those that answer. */
  function MembersOf(s: P.Sys, obs: Option<P.Token>): set<P.Node> {
    if obs.Some? && obs.value in s.clusters then s.clusters[obs.value].members else {}
  }

  function HealthyOf(s: P.Sys, obs: Option<P.Token>): set<P.Node> {
    set n | n in MembersOf(s, obs) && P.Healthy(s, n)
  }

  lemma PeersAreTold(name: P.Node -> string, c: P.Cycle, members: set<P.Node>, healthy: set<P.Node>, version: string)
    requires Injective(name)
    ensures var peers := Told(name, c, members, healthy, version).peers;
            peers.Keys == Names(name, c.view) && forall n | n in c.view :: name(n) in peers && peers[name(n)] == Report(c, n, version)
  {
  }

  lemma ToldSets(name: P.Node -> string, c: P.Cycle, members: set<P.Node>, healthy: set<P.Node>, version: string)
    requires Injective(name) && c.flagged <= c.view - c.idle
    ensures var st := Told(name, c, members, healthy, version);
            && C.Configured(st) == Names(name, c.view - c.idle) && C.Quarantined(st) == Names(name, c.flagged)
            && C.Mismatched(st, version) == if c.mismatch then C.Configured(st) else {}
  {
    var st := Told(name, c, members, healthy, version);
    PeersAreTold(name, c, members, healthy, version);
    hide Told;
    assert |version + "x"| == |version| + 1;
    forall p | p in st.peers ensures exists n :: n in c.view && name(n) == p && st.peers[p] == Report(c, n, version) {}
  }

  lemma ToldPeers(name: P.Node -> string, c: P.Cycle, members: set<P.Node>, healthy: set<P.Node>, version: string)
    requires Injective(name) && c.flagged <= c.view - c.idle && (c.mismatch ==> c.view - c.idle != {})
    ensures var st := Told(name, c, members, healthy, version);
            && |C.Configured(st)| == |c.view - c.idle| && (C.Quarantined(st) == {} <==> c.flagged == {})
            && (C.Quarantined(st) == C.Configured(st) <==> c.flagged == c.view - c.idle)
            && (C.Mismatched(st, version) == {} <==> !c.mismatch)
  {
    ToldSets(name, c, members, healthy, version);
    NamesSize(name, c.view - c.idle);
    NamesSize(name, c.flagged);
    hide Told, Names;
    if c.flagged != c.view - c.idle { SubsetSize(c.flagged, c.view - c.idle); }
  }

  lemma ToldMembers(name: P.Node -> string, env: P.Env, c: P.Cycle, members: set<P.Node>, healthy: set<P.Node>, version: string)
    requires Injective(name) && healthy <= members
    ensures var st := Told(name, c, members, healthy, version);
            && |st.members| == |members| && |st.healthy| == |healthy|
            && (C.Upgradable(st, C.Spec(env.memberCount, version)) <==>
                  members <= c.view && healthy == members && |members| == env.memberCount)
  {
    var st := Told(name, c, members, healthy, version);
    NamesSize(name, members);
    NamesSize(name, healthy);
    assert st.members.Keys == Names(name, members) && |st.members.Keys| == |st.members|;
    assert st.peers.Keys == Names(name, c.view);
    if healthy != members { SubsetSize(healthy, members); }
    if C.Upgradable(st, C.Spec(env.memberCount, version)) {
      forall n | n in members ensures n in c.view { assert name(n) in st.members && name(n) in Names(name, c.view); }
    }
  }

  /** After every survey there is a situation that tells the controller what it found. */
  lemma SurveyIsTold(env: P.Env, s: P.Sys, e: P.Epoch, obs: Option<P.Token>, mismatch: bool, name: P.Node -> string,
                     version: string, supported: string -> bool, inPlace: (string, string) -> bool, tls: bool)
    returns (sit: C.Situation)
    requires P.CanStep(env, s, P.Survey(e, obs, mismatch)) && P.At(s, e) && Injective(name) && env.memberCount > 0
    requires mismatch ==> s.cycles[e].view * s.cfg.Keys != {}
    ensures Tells(env, P.DoStep(env, s, P.Survey(e, obs, mismatch)), e, sit)
    ensures sit.spec == Some(C.Spec(env.memberCount, version)) && sit.supported == supported && sit.inPlace == inPlace && sit.tlsPending == tls
  {
    var s' := P.DoStep(env, s, P.Survey(e, obs, mismatch));
    Found(env, s, e, obs, mismatch);
    hide P.CanStep, P.DoStep, P.Healthy, Told, Tells;
    var c := s'.cycles[e];
    var st := Told(name, c, MembersOf(s, obs), HealthyOf(s, obs), version);
    ToldPeers(name, c, MembersOf(s, obs), HealthyOf(s, obs), version);
    ToldMembers(name, env, c, MembersOf(s, obs), HealthyOf(s, obs), version);
    sit := C.Situation(st, |c.view|, !s.created, Some(C.Spec(env.memberCount, version)), s.caches[c.owner] != [], tls, supported, inPlace);
    hide C.Configured, C.Quarantined, C.Mismatched, C.Upgradable, HealthyOf, P.FullyHealthy, P.Ready;
    TellsFrom(env, s', e, sit, |MembersOf(s, obs)|, |HealthyOf(s, obs)|);
  }

  lemma TellsFrom(env: P.Env, s: P.Sys, e: P.Epoch, sit: C.Situation, members: nat, healthy: nat)
    requires P.At(s, e) && sit.spec.Some? && sit.spec.value.memberCount == env.memberCount
    requires var c, st := s.cycles[e], sit.state;
             && sit.acked == |c.view| && sit.isNew == !s.created && sit.restoreQueued == (s.caches[c.owner] != [])
             && |C.Configured(st)| == |c.view - c.idle| && (C.Quarantined(st) == {} <==> c.flagged == {})
             && (C.Quarantined(st) == C.Configured(st) <==> c.flagged == c.view - c.idle)
             && (C.Mismatched(st, sit.spec.value.version) == {} <==> !c.mismatch)
             && |st.members| == members == (if P.Observes(s, e) then |s.clusters[c.obs.value].members| else 0)
             && |st.healthy| == healthy && (healthy >= env.Q() <==> c.ready) && (C.Upgradable(st, sit.spec.value) <==> c.full)
    ensures Tells(env, s, e, sit)
  {
    hide C.Configured, C.Quarantined, C.Mismatched, C.Upgradable;
  }

  /** What a survey finds. */
  lemma Found(env: P.Env, s: P.Sys, e: P.Epoch, obs: Option<P.Token>, mismatch: bool)
    requires P.CanStep(env, s, P.Survey(e, obs, mismatch)) && P.At(s, e) && env.memberCount > 0
    ensures var s' := P.DoStep(env, s, P.Survey(e, obs, mismatch));
            && s'.clusters == s.clusters && s'.created == s.created && s'.caches == s.caches && e in s'.cycles
            && var c, c' := s.cycles[e], s'.cycles[e];
               && c'.owner == c.owner && c'.view == c.view && c'.obs == obs && c'.mismatch == mismatch
               && c'.view - c'.idle == c.view * s.cfg.Keys && c'.flagged <= c.view * s.cfg.Keys
               && (c'.ready <==> |HealthyOf(s, obs)| >= env.Q())
               && (c'.full <==> MembersOf(s, obs) <= c.view && HealthyOf(s, obs) == MembersOf(s, obs) && |MembersOf(s, obs)| == env.memberCount)
               && (obs.Some? ==> obs.value in s.clusters)
  {
    hide P.Healthy;
    SurveyCounts(env, s, s.cycles[e].view, obs);
    hide P.Ready, P.FullyHealthy, HealthyOf;
  }

  lemma SurveyCounts(env: P.Env, s: P.Sys, view: set<P.Node>, obs: Option<P.Token>)
    requires obs.Some? ==> obs.value in s.clusters
    ensures P.Ready(env, s, obs) <==> obs.Some? && |HealthyOf(s, obs)| >= env.Q()
    ensures P.FullyHealthy(env, s, view, obs) <==>
            obs.Some? && MembersOf(s, obs) <= view && HealthyOf(s, obs) == MembersOf(s, obs) && |MembersOf(s, obs)| == env.memberCount
  {
    hide P.Healthy;
    if obs.Some? {
      assert HealthyOf(s, obs) == set n | n in s.clusters[obs.value].members && P.Healthy(s, n);
    }
  }
}
