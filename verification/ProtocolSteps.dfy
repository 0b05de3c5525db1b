/** Every disciplined step keeps the invariant. */
module ProtocolSteps {
  import opened Options
  import opened Quorum
  import opened Protocol
  import opened ProtocolInvariant

  // ---------------------------------------------------------------- frames

  /** The mode of the system and its history variables are as before. */
  predicate SameMode(s: Sys, s': Sys) {
    && s'.created == s.created && s'.queue == s.queue && s'.gen == s.gen && s'.zone == s.zone
    && s'.cur == s.cur && s'.acked == s.acked
  }

  /** Node n looks the same. */
  predicate SameNode(s: Sys, s': Sys, n: Node) {
    (n in s'.cfg <==> n in s.cfg) && (n in s.cfg ==> s'.cfg[n] == s.cfg[n])
  }

  /** Known clusters look the same; there may be new ones. */
  predicate SameClusters(s: Sys, s': Sys) {
    forall t | t in s.clusters :: t in s'.clusters && s'.clusters[t] == s.clusters[t]
  }

  /** A cycle keeps what it knows through a step that leaves it, its mode and its nodes alone. */
  lemma CycleFrame(env: Env, s: Sys, s': Sys, e: Epoch)
    requires e in s.cycles && e in s'.cycles && s'.cycles[e] == s.cycles[e]
    requires SameMode(s, s') && SameClusters(s, s')
    requires forall n | Last(s', n, e) :: Last(s, n, e) && SameNode(s, s', n)
    requires CycleInv(env, s, e)
    ensures CycleInv(env, s', e)
  {
    LocalFrame(env, s, s', e);
    hide Local;
    if Unsuperseded(s', e) {
      assert Unsuperseded(s, e);
      assert forall n | n in s.cycles[e].view :: Last(s', n, e) && SameNode(s, s', n);
    }
  }

  lemma LocalFrame(env: Env, s: Sys, s': Sys, e: Epoch)
    requires e in s.cycles && e in s'.cycles && s'.cycles[e] == s.cycles[e]
    requires SameClusters(s, s') && Local(env, s, e)
    requires forall n | Last(s', n, e) :: Last(s, n, e) && SameNode(s, s', n)
    ensures Local(env, s', e) && (s.cycles[e].obs.Some? ==> s.cycles[e].obs.value in s.clusters && s.cycles[e].obs.value in s'.clusters)
  {
  }

  predicate SameButContents(s: Sys, s': Sys) {
    && s'.clusters.Keys == s.clusters.Keys
    && forall t | t in s.clusters :: s'.clusters[t] == s.clusters[t].(kv := s'.clusters[t].kv)
  }

  /** The same when contents change, for a cycle that does not rely on them. */
  lemma ContentsCycleFrame(env: Env, s: Sys, s': Sys, e: Epoch)
    requires e in s.cycles && e in s'.cycles && s'.cycles[e] == s.cycles[e]
    requires SameMode(s, s'.(acked := s.acked)) && SameButContents(s, s') && s'.cfg == s.cfg && s'.acc == s.acc
    requires Unsuperseded(s, e) ==> !s.cycles[e].pc.Queueing? && !s.cycles[e].pc.Copying?
    requires CycleInv(env, s, e)
    ensures CycleInv(env, s', e)
  {
    ContentsLocalFrame(env, s, s', e);
    hide Local;
    assert Unsuperseded(s', e) == Unsuperseded(s, e);
  }

  lemma ContentsLocalFrame(env: Env, s: Sys, s': Sys, e: Epoch)
    requires e in s.cycles && e in s'.cycles && s'.cycles[e] == s.cycles[e]
    requires SameButContents(s, s') && s'.cfg == s.cfg && s'.acc == s.acc && Local(env, s, e)
    ensures Local(env, s', e) && (s.cycles[e].obs.Some? ==> s.cycles[e].obs.value in s.clusters && s.cycles[e].obs.value in s'.clusters)
    ensures forall n :: Last(s', n, e) == Last(s, n, e)
  {
    assert forall n :: Last(s', n, e) == Last(s, n, e);
  }

  /** The facts about clusters and nodes depend on nothing else. */
  lemma ContentsFrame(env: Env, s: Sys, s': Sys)
    requires SameMode(s, s') && s'.cfg == s.cfg && s'.clusters == s.clusters
    ensures Contents(env, s) ==> Contents(env, s')
    ensures forall t | t in s.clusters && ClusterShape(env, s, t) :: ClusterShape(env, s', t)
    ensures forall t :: Newborn(s', t) == Newborn(s, t)
  {
    assert forall t :: Newborn(s', t) == Newborn(s, t);
  }

  /** Steps that touch neither leaders' knowledge nor durable state. */
  lemma EnvironmentStep(env: Env, s: Sys, s': Sys)
    requires env.Ok() && Sound(env, s)
    requires SameMode(s, s') && s'.cfg == s.cfg && s'.clusters == s.clusters && s'.acc == s.acc
    requires s'.cycles == s.cycles && s'.nextEpoch == s.nextEpoch && s'.up <= s'.cfg.Keys && s.caches.Keys <= s'.caches.Keys
    ensures Sound(env, s')
  {
    hide Local, Kind, Held, Fence, Nursery, Contents;
    ContentsFrame(env, s, s');
    FewerCyclesNursery(s, s');
    assert Shape(env, s') by { assert forall t | t in s.clusters :: ClusterShape(env, s, t); }
    forall e | e in s'.cycles ensures CycleInv(env, s', e) { CycleFrame(env, s, s', e); }
  }

  /** Ending cycles, or starting undecided ones, leaves the new clusters tended. */
  lemma FewerCyclesNursery(s: Sys, s': Sys)
    requires Nursery(s) && SameMode(s, s') && s'.cfg == s.cfg && s'.clusters == s.clusters
    requires forall n, e | e in s'.cycles && Last(s', n, e) && Decided(s'.cycles[e]) ::
               e in s.cycles && Last(s, n, e) && s'.cycles[e] == s.cycles[e]
    ensures Nursery(s')
  {
    assert forall t :: Newborn(s', t) == Newborn(s, t);
    forall m | m in s'.cfg && Newborn(s', s'.cfg[m].token) ensures Tended(s', m) { assert Tended(s, m); }
  }

  // ---------------------------------------------------------------- cycles come and go

  lemma RestStep(env: Env, s: Sys, a: LocalAction)
    requires env.Ok() && Sound(env, s) && CanLocally(env, s, a) && !a.ClientWrite?
    ensures Sound(env, DoLocally(env, s, a))
  {
    EnvironmentStep(env, s, DoLocally(env, s, a));
  }

  lemma StartStep(env: Env, s: Sys, owner: Node, view: set<Node>)
    requires env.Ok() && Sound(env, s) && CanStep(env, s, Start(owner, view))
    ensures Sound(env, DoStep(env, s, Start(owner, view)))
  {
    var s' := DoStep(env, s, Start(owner, view));
    StartShape(env, s, owner, view);
    assert CycleInv(env, s', s.nextEpoch);
    hide Local, Kind, Held, Fence, Nursery, Contents;
    ContentsFrame(env, s, s');
    FewerCyclesNursery(s, s');
    forall e | e in s'.cycles ensures CycleInv(env, s', e) {
      if e != s.nextEpoch { CycleFrame(env, s, s', e); }
    }
  }

  lemma StartShape(env: Env, s: Sys, owner: Node, view: set<Node>)
    requires Shape(env, s) && CanStep(env, s, Start(owner, view))
    ensures Shape(env, DoStep(env, s, Start(owner, view)))
    ensures s.nextEpoch !in s.cycles && forall n :: !Last(s, n, s.nextEpoch)
  {
    assert forall t | t in s.clusters :: ClusterShape(env, s, t);
  }

  lemma EndStep(env: Env, s: Sys, e: Epoch)
    requires env.Ok() && Sound(env, s) && CanStep(env, s, End(e))
    ensures Sound(env, DoStep(env, s, End(e)))
  {
    hide Local, Kind, Held, Fence, Nursery, Contents;
    var s' := DoStep(env, s, End(e));
    ContentsFrame(env, s, s');
    FewerCyclesNursery(s, s');
    assert Shape(env, s') by { assert forall t | t in s.clusters :: ClusterShape(env, s, t); }
    forall f | f in s'.cycles ensures CycleInv(env, s', f) { CycleFrame(env, s, s', f); }
  }

  lemma AssertStep(env: Env, s: Sys, e: Epoch, n: Node)
    requires env.Ok() && Sound(env, s) && CanStep(env, s, Assert(e, n))
    ensures Sound(env, DoStep(env, s, Assert(e, n)))
  {
    hide Local, Kind, Held, Nursery, Contents;
    var s' := DoStep(env, s, Assert(e, n));
    ContentsFrame(env, s, s');
    AssertShape(env, s, e, n);
    FewerCyclesNursery(s, s');
    forall f | f in s'.cycles ensures CycleInv(env, s', f) {
      if f == e { AsserterKnows(env, s, e, n); } else { CycleFrame(env, s, s', f); }
    }
  }

  lemma AsserterKnows(env: Env, s: Sys, e: Epoch, n: Node)
    requires CanStep(env, s, Assert(e, n)) && CycleInv(env, s, e)
    ensures CycleInv(env, DoStep(env, s, Assert(e, n)), e)
  {
  }

  lemma AssertShape(env: Env, s: Sys, e: Epoch, n: Node)
    requires Shape(env, s) && CanStep(env, s, Assert(e, n))
    ensures Shape(env, DoStep(env, s, Assert(e, n)))
  {
    assert forall t | t in s.clusters :: ClusterShape(env, s, t);
  }

  // ---------------------------------------------------------------- steps on one cycle's own record

  /** Only e's record changes. */
  lemma OwnRecordStep(env: Env, s: Sys, e: Epoch, c: Cycle)
    requires env.Ok() && Sound(env, s) && e in s.cycles
    requires c.owner == s.cycles[e].owner && c.view == s.cycles[e].view
    requires CycleInv(env, s.(cycles := s.cycles[e := c]), e)
    requires Decided(c) ==> c.gen == s.gen || (Decided(s.cycles[e]) && c.gen == s.cycles[e].gen)
    ensures Sound(env, s.(cycles := s.cycles[e := c]))
  {
    var s' := s.(cycles := s.cycles[e := c]);
    ContentsFrame(env, s, s');
    assert Shape(env, s') by {
      assert forall t | t in s'.clusters :: ClusterShape(env, s, t);
    }
    assert Nursery(s') by {
      forall m | m in s'.cfg && Newborn(s', s'.cfg[m].token) ensures Tended(s', m) {
        TendedFrame(s, e, c, m);
      }
    }
    forall f | f in s'.cycles ensures CycleInv(env, s', f) {
      if f != e { CycleFrame(env, s, s', f); }
    }
  }

  lemma TendedFrame(s: Sys, e: Epoch, c: Cycle, m: Node)
    requires e in s.cycles && Tended(s, m)
    requires Decided(c) ==> c.gen == s.gen || (Decided(s.cycles[e]) && c.gen == s.cycles[e].gen)
    ensures Tended(s.(cycles := s.cycles[e := c]), m)
  {
  }

  lemma SurveyStep(env: Env, s: Sys, e: Epoch, obs: Option<Token>, mismatch: bool)
    requires env.Ok() && Inv(env, s) && CanStep(env, s, Survey(e, obs, mismatch))
    ensures Sound(env, DoStep(env, s, Survey(e, obs, mismatch)))
  {
    var c := Surveying(env, s, s.cycles[e], obs, mismatch);
    SurveyorKnows(env, s, e, obs, mismatch);
    hide Surveying, Ready;
    OwnRecordStep(env, s, e, c);
  }

  lemma SurveyorKnows(env: Env, s: Sys, e: Epoch, obs: Option<Token>, mismatch: bool)
    requires env.Ok() && Inv(env, s) && CanStep(env, s, Survey(e, obs, mismatch))
    ensures var c := Surveying(env, s, s.cycles[e], obs, mismatch);
            c.owner == s.cycles[e].owner && c.view == s.cycles[e].view && !Decided(c) &&
            CycleInv(env, s.(cycles := s.cycles[e := c]), e)
  {
    hide Ready;
    if obs.Some? {
      forall n | Healthy(s, n) && n in s.clusters[obs.value].members ensures s.cfg[n].token == obs.value {
        HealthyBelongs(env, s, n, obs.value);
      }
      QuorateCluster(env, s, obs.value);
    }
    SurveyComputed(env, s, e, obs, mismatch);
  }

  /** A healthy node belongs to the one cluster that has a quorum. */
  lemma HealthyBelongs(env: Env, s: Sys, n: Node, o: Token)
    requires env.Ok() && Shape(env, s) && Healthy(s, n) && Quorate(s, o)
    ensures s.cfg[n].token == o
  {
    assert ClusterShape(env, s, s.cfg[n].token) && ClusterShape(env, s, o);
    OneQuorate(env, s, s.cfg[n].token, o);
  }

  lemma SurveyComputed(env: Env, s: Sys, e: Epoch, obs: Option<Token>, mismatch: bool)
    requires e in s.cycles && (obs.Some? ==> obs.value in s.clusters && Alive(s, obs.value))
    requires obs.Some? ==> forall n | Healthy(s, n) && n in s.clusters[obs.value].members :: s.cfg[n].token == obs.value
    ensures var c := Surveying(env, s, s.cycles[e], obs, mismatch);
            c.owner == s.cycles[e].owner && c.view == s.cycles[e].view && !Decided(c) &&
            CycleInv(env, s.(cycles := s.cycles[e := c]), e)
  {
    hide Ready;
    var c := Surveying(env, s, s.cycles[e], obs, mismatch);
    var s' := s.(cycles := s.cycles[e := c]);
    hide Quorate;
    assert Surveys(s', e) && Fit(s', e);
    assert c.full ==> obs.Some? && Complete(env, s', obs) && Manned(s', c.view, obs.value);
    hide Surveying, FullyHealthy, Healthy, Surveys, Fit;
  }

  lemma ChooseLiftStep(env: Env, s: Sys, e: Epoch)
    requires env.Ok() && Sound(env, s) && CanStep(env, s, ChooseLift(e)) && DisciplinedStep(s, ChooseLift(e))
    ensures Sound(env, DoStep(env, s, ChooseLift(e)))
  {
    assert CycleInv(env, s, e);
    OwnRecordStep(env, s, e, s.cycles[e].(pc := Lifting, gen := s.gen));
  }

  lemma ChooseUpgradeStep(env: Env, s: Sys, e: Epoch)
    requires env.Ok() && Sound(env, s) && CanStep(env, s, ChooseUpgrade(e)) && DisciplinedStep(s, ChooseUpgrade(e))
    ensures Sound(env, DoStep(env, s, ChooseUpgrade(e)))
  {
    assert CycleInv(env, s, e);
    OwnRecordStep(env, s, e, s.cycles[e].(pc := Quarantining(s.clusters[s.cycles[e].obs.value].members), gen := s.gen));
  }

  lemma ChooseRestoreStep(env: Env, s: Sys, e: Epoch)
    requires env.Ok() && Sound(env, s) && CanStep(env, s, ChooseRestore(e)) && DisciplinedStep(s, ChooseRestore(e))
    ensures Sound(env, DoStep(env, s, ChooseRestore(e)))
  {
    assert CycleInv(env, s, e);
    OwnRecordStep(env, s, e, s.cycles[e].(pc := Restoring(s.caches[s.cycles[e].owner][0]), gen := s.gen));
  }

  lemma ChooseExpandStep(env: Env, s: Sys, e: Epoch, m: Node)
    requires env.Ok() && Sound(env, s) && CanStep(env, s, ChooseExpand(e, m)) && DisciplinedStep(s, ChooseExpand(e, m))
    ensures Sound(env, DoStep(env, s, ChooseExpand(e, m)))
  {
    assert CycleInv(env, s, e) && ClusterShape(env, s, s.cycles[e].obs.value);
    OwnRecordStep(env, s, e, s.cycles[e].(pc := Expanding(Inviting, m), gen := s.gen));
  }

  lemma DumpStep(env: Env, s: Sys, e: Epoch, n: Node)
    requires env.Ok() && Sound(env, s) && CanRequest(s, e, n, Dump)
    ensures Sound(env, DoRequest(s, e, n, Dump))
  {
    assert CycleInv(env, s, e);
    OwnRecordStep(env, s, e, s.cycles[e].(pc := Queueing(s.clusters[s.cfg[n].token].kv)));
  }

  lemma BeginPrepareStep(env: Env, s: Sys, e: Epoch)
    requires env.Ok() && Sound(env, s) && CanStep(env, s, BeginPrepare(e))
    ensures Sound(env, DoStep(env, s, BeginPrepare(e)))
  {
    assert CycleInv(env, s, e);
    OwnRecordStep(env, s, e, s.cycles[e].(pc := NextPhase(s.cycles[e].pc, Preparing)));
  }

  lemma BeginCommitStep(env: Env, s: Sys, e: Epoch)
    requires env.Ok() && Sound(env, s) && CanStep(env, s, BeginCommit(e))
    ensures Sound(env, DoStep(env, s, BeginCommit(e)))
  {
    assert CycleInv(env, s, e);
    OwnRecordStep(env, s, e, s.cycles[e].(pc := NextPhase(s.cycles[e].pc, Forming)));
  }

  lemma PrepareStep(env: Env, s: Sys, e: Epoch, n: Node)
    requires env.Ok() && Sound(env, s) && CanRequest(s, e, n, Prepare)
    ensures Sound(env, DoRequest(s, e, n, Prepare))
  {
    var pc := DoneAt(s.cycles[e].pc, n);
    PreparedKnows(env, s, e, n);
    OwnRecordStep(env, s, e, s.cycles[e].(pc := pc));
    EnvironmentStep(env, WithPc(s, e, pc), DoRequest(s, e, n, Prepare));
  }

  lemma PreparedKnows(env: Env, s: Sys, e: Epoch, n: Node)
    requires InPhase(s, e, Preparing) && CycleInv(env, s, e)
    ensures CycleInv(env, WithPc(s, e, DoneAt(s.cycles[e].pc, n)), e)
  {
    var s' := WithPc(s, e, DoneAt(s.cycles[e].pc, n));
    forall m | m in s'.cycles[e].view && Last(s', m, e) ensures ProgressAt(s', s'.cycles[e].pc, m) {
      assert Last(s, m, e) && ProgressAt(s, s.cycles[e].pc, m);
    }
  }

  lemma PrepareJoinStep(env: Env, s: Sys, e: Epoch, n: Node)
    requires env.Ok() && Sound(env, s) && CanRequest(s, e, n, PrepareJoin)
    ensures Sound(env, DoRequest(s, e, n, PrepareJoin))
  {
    assert CycleInv(env, s, e);
    var pc := Expanding(Adding, n);
    OwnRecordStep(env, s, e, s.cycles[e].(pc := pc));
    EnvironmentStep(env, WithPc(s, e, pc), DoRequest(s, e, n, PrepareJoin));
  }

  lemma BeginCopyStep(env: Env, s: Sys, e: Epoch, n: Node)
    requires env.Ok() && Sound(env, s) && CanRequest(s, e, n, BeginCopy)
    ensures Sound(env, DoRequest(s, e, n, BeginCopy))
  {
    assert CycleInv(env, s, e);
    BeginnerKnows(env, s, e, n);
    hide Local, Held, Kind, Fence, Nursery, Contents, Shape;
    OwnRecordStep(env, s, e, DoRequest(s, e, n, BeginCopy).cycles[e]);
  }

  lemma BeginnerKnows(env: Env, s: Sys, e: Epoch, n: Node)
    requires CanRequest(s, e, n, BeginCopy) && CycleInv(env, s, e)
    ensures CycleInv(env, DoRequest(s, e, n, BeginCopy), e)
  {
    var s' := DoRequest(s, e, n, BeginCopy);
    assert forall m :: Last(s', m, e) == Last(s, m, e);
    if !s.cycles[e].pc.Restoring? {
      assert s.cfg[n].token == s.cycles[e].pc.token by { assert ProgressAt(s, s.cycles[e].pc, n); }
      forall m | m in s.cycles[e].pc.plan && Last(s, m, e) ensures m in s.cfg && s.cfg[m].token == s.cfg[n].token {
        assert ProgressAt(s, s.cycles[e].pc, m);
      }
    }
  }

  /** Sending the surveyed flag again changes nothing but that etcd restarts. */
  lemma ResendStep(env: Env, s: Sys, e: Epoch, n: Node)
    requires env.Ok() && Sound(env, s) && CanRequest(s, e, n, Resend)
    ensures Sound(env, DoRequest(s, e, n, Resend))
    ensures DoRequest(s, e, n, Resend) == s.(up := s.up + {n})
  {
    assert CycleInv(env, s, e);
    assert s.cfg[n := s.cfg[n]] == s.cfg;
    EnvironmentStep(env, s, DoRequest(s, e, n, Resend));
  }

  // ---------------------------------------------------------------- requests that change one node

  /** What the mode asks of node n. */
  ghost predicate NodeOk(s: Sys, n: Node) {
    && (s.created && s.cur in s.clusters && s.queue != [] && n in s.cfg ==> Suspended(s, n))
    && (n in s.cfg && Newborn(s, s.cfg[n].token) ==> s.cfg[n].quarantined && Tended(s, n))
  }

  /** Only node n's durable state, etcd processes, and possibly e's record change. */
  ghost predicate OnlyNode(s: Sys, s': Sys, e: Epoch, n: Node) {
    && SameMode(s, s') && s'.clusters == s.clusters && s'.acc == s.acc
    && s'.nextEpoch == s.nextEpoch && s'.caches == s.caches
    && (forall m | m != n :: SameNode(s, s', m))
    && s'.cycles.Keys <= s.cycles.Keys
    && (forall f | f in s'.cycles && f != e :: s'.cycles[f] == s.cycles[f])
    && (e in s.cycles && e in s'.cycles ==>
          s'.cycles[e].gen == s.cycles[e].gen && s'.cycles[e].view == s.cycles[e].view &&
          s'.cycles[e].owner == s.cycles[e].owner && Decided(s'.cycles[e]) == Decided(s.cycles[e]))
  }

  lemma OneNodeContents(env: Env, s: Sys, s': Sys, e: Epoch, n: Node)
    requires Contents(env, s) && Nursery(s) && OnlyNode(s, s', e, n) && NodeOk(s', n)
    ensures Contents(env, s') && Nursery(s')
  {
    forall m | m in s'.cfg && Newborn(s', s'.cfg[m].token)
      ensures s'.cfg[m].quarantined && Tended(s', m)
    {
      if m != n { assert SameNode(s, s', m) && Newborn(s, s.cfg[m].token) && Tended(s, m); }
    }
    assert forall t :: Newborn(s', t) == Newborn(s, t);
    if s.created && s.queue != [] {
      forall m | m in s'.cfg ensures Suspended(s', m) {
        if m != n { assert SameNode(s, s', m) && Suspended(s, m); }
      }
    }
  }

  /** The creating cycle's own knowledge after its request at n. */
  lemma ProgressStep(s: Sys, s': Sys, e: Epoch, n: Node)
    requires e in s.cycles && s.cycles[e].pc.Creating? && Progress(s, e) && OnlyNode(s, s', e, n)
    requires e in s'.cycles && s'.cycles[e].pc == DoneAt(s.cycles[e].pc, n)
    requires ProgressAt(s', s'.cycles[e].pc, n)
    ensures Progress(s', e)
  {
    forall m | m in s'.cycles[e].view && Last(s', m, e) ensures ProgressAt(s', s'.cycles[e].pc, m) {
      if m != n { assert SameNode(s, s', m) && Last(s, m, e) && ProgressAt(s, s.cycles[e].pc, m); }
    }
  }

  lemma OneNodeStep(env: Env, s: Sys, s': Sys, e: Epoch, n: Node)
    requires env.Ok() && Sound(env, s) && e in s.cycles && Last(s, n, e) && n in env.nodes
    requires OnlyNode(s, s', e, n) && s'.up <= s'.cfg.Keys
    requires n in s'.cfg ==> s'.cfg[n].token in s.clusters
    requires NodeOk(s', n) && (e in s'.cycles ==> CycleInv(env, s', e))
    ensures Sound(env, s')
  {
    OneNodeContents(env, s, s', e, n);
    assert Shape(env, s') by {
      forall t | t in s'.clusters ensures ClusterShape(env, s', t) { assert ClusterShape(env, s, t); }
      forall m | m in s'.cfg ensures m in env.nodes && s'.cfg[m].token in s'.clusters { assert m != n ==> SameNode(s, s', m); }
    }
    forall f | f in s'.cycles ensures CycleInv(env, s', f) {
      if f != e { CycleFrame(env, s, s', f); }
    }
  }

  /** A leader from before the change of mode cannot reach the nodes that matter now. */
  lemma OldLeader(env: Env, s: Sys, e: Epoch, n: Node)
    requires Sound(env, s) && e in s.cycles && Last(s, n, e) && Decided(s.cycles[e]) && s.cycles[e].gen != s.gen
    ensures s.cycles[e].gen < s.gen && s.created
    ensures n !in s.zone
    ensures s.queue != [] ==> n !in s.clusters[s.cur].members
    ensures n in s.cfg ==> !Newborn(s, s.cfg[n].token)
  {
    assert CycleInv(env, s, e);
    assert n in s.cfg && Newborn(s, s.cfg[n].token) ==> Tended(s, n);
  }

  lemma SilenceStep(env: Env, s: Sys, e: Epoch, n: Node)
    requires env.Ok() && Sound(env, s) && CanRequest(s, e, n, Silence)
    ensures Sound(env, DoRequest(s, e, n, Silence))
  {
    var s' := DoRequest(s, e, n, Silence);
    assert CycleInv(env, s, e);
    SilencedNodeOk(env, s, n, s');
    assert CycleInv(env, s', e);
    hide Local, Held, Nursery, Contents, Fence, Kind;
    OneNodeStep(env, s, s', e, n);
  }

  lemma SilencedNodeOk(env: Env, s: Sys, n: Node, s': Sys)
    requires Contents(env, s) && Nursery(s) && n in s.cfg && s' == Flagged(s, n, true)
    ensures NodeOk(s', n)
  {
    assert s.created && s.queue != [] ==> Suspended(s, n);
    assert Newborn(s, s.cfg[n].token) ==> Tended(s, n);
  }

  lemma LiftStep(env: Env, s: Sys, e: Epoch, n: Node)
    requires env.Ok() && Sound(env, s) && CanRequest(s, e, n, Lift)
    ensures Sound(env, DoRequest(s, e, n, Lift))
  {
    var s' := DoRequest(s, e, n, Lift);
    assert CycleInv(env, s, e);
    if s.cycles[e].gen != s.gen { OldLeader(env, s, e, n); }
    assert NodeOk(s', n);
    OneNodeStep(env, s, s', e, n);
  }

  lemma QuarantineStep(env: Env, s: Sys, e: Epoch, n: Node)
    requires env.Ok() && Sound(env, s) && CanRequest(s, e, n, Quarantine)
    ensures Sound(env, DoRequest(s, e, n, Quarantine))
  {
    hide Local, Kind, Held, Fence, Nursery, Contents;
    var s' := DoRequest(s, e, n, Quarantine);
    QuarantineNodeOk(env, s, e, n);
    QuarantinedKnows(env, s, e, n);
    OneNodeStep(env, s, s', e, n);
  }

  lemma QuarantineNodeOk(env: Env, s: Sys, e: Epoch, n: Node)
    requires env.Ok() && Sound(env, s) && CanRequest(s, e, n, Quarantine)
    ensures NodeOk(DoRequest(s, e, n, Quarantine), n)
  {
    assert CycleInv(env, s, e);
    if s.cycles[e].gen != s.gen { OldLeader(env, s, e, n); }
  }

  lemma QuarantinedKnows(env: Env, s: Sys, e: Epoch, n: Node)
    requires CanRequest(s, e, n, Quarantine) && CycleInv(env, s, e)
    ensures CycleInv(env, DoRequest(s, e, n, Quarantine), e)
  {
    var s' := DoRequest(s, e, n, Quarantine);
    if Unsuperseded(s', e) {
      assert Unsuperseded(s, e);
      assert Silenced(s, s.cycles[e].view, s.cycles[e].pc.unflagged);
    }
  }

  lemma HaltStep(env: Env, s: Sys, e: Epoch, n: Node)
    requires env.Ok() && Sound(env, s) && CanRequest(s, e, n, Halt)
    ensures Sound(env, DoRequest(s, e, n, Halt))
  {
    var s' := DoRequest(s, e, n, Halt);
    assert CycleInv(env, s, e);
    if s.cycles[e].gen != s.gen { OldLeader(env, s, e, n); }
    assert NodeOk(s', n);
    assert CycleInv(env, s', e);
    hide Local, Held, Nursery, Contents, Fence, Kind;
    OneNodeStep(env, s, s', e, n);
  }

  lemma ClearStep(env: Env, s: Sys, e: Epoch, n: Node)
    requires env.Ok() && Sound(env, s) && CanRequest(s, e, n, Clear)
    ensures Sound(env, DoRequest(s, e, n, Clear))
  {
    ClearNodeOk(env, s, e, n);
    ClearFrame(env, s, e, n);
    OneNodeStep(env, s, DoRequest(s, e, n, Clear), e, n);
  }

  lemma ClearNodeOk(env: Env, s: Sys, e: Epoch, n: Node)
    requires env.Ok() && Sound(env, s) && CanRequest(s, e, n, Clear)
    ensures NodeOk(DoRequest(s, e, n, Clear), n)
  {
    assert CycleInv(env, s, e);
    if s.cycles[e].gen != s.gen { OldLeader(env, s, e, n); }
  }

  lemma ClearFrame(env: Env, s: Sys, e: Epoch, n: Node)
    requires CanRequest(s, e, n, Clear) && CycleInv(env, s, e) && s.up <= s.cfg.Keys
    ensures var s' := DoRequest(s, e, n, Clear);
            OnlyNode(s, s', e, n) && s'.up <= s'.cfg.Keys && CycleInv(env, s', e)
  {
    var s' := DoRequest(s, e, n, Clear);
    CreatingKnows(env, s, s', e, n);
  }

  lemma CreatingKnows(env: Env, s: Sys, s': Sys, e: Epoch, n: Node)
    requires e in s.cycles && s.cycles[e].pc.Creating? && CycleInv(env, s, e) && OnlyNode(s, s', e, n)
    requires e in s'.cycles && s'.cycles[e] == s.cycles[e].(pc := DoneAt(s.cycles[e].pc, n))
    requires ProgressAt(s', s'.cycles[e].pc, n)
    ensures CycleInv(env, s', e)
  {
    ProgressStep(s, s', e, n);
  }

  lemma CommitStep(env: Env, s: Sys, e: Epoch, n: Node)
    requires env.Ok() && Sound(env, s) && CanRequest(s, e, n, Commit)
    ensures Sound(env, DoRequest(s, e, n, Commit))
  {
    CommitNodeOk(env, s, e, n);
    CommitFrame(env, s, e, n);
    OneNodeStep(env, s, DoRequest(s, e, n, Commit), e, n);
  }

  lemma CommitFrame(env: Env, s: Sys, e: Epoch, n: Node)
    requires CanRequest(s, e, n, Commit) && CycleInv(env, s, e) && s.up <= s.cfg.Keys
    ensures var s' := DoRequest(s, e, n, Commit);
            && OnlyNode(s, s', e, n) && s'.up <= s'.cfg.Keys && CycleInv(env, s', e)
            && s'.cfg[n].token in s.clusters
  {
    var s' := DoRequest(s, e, n, Commit);
    CreatingKnows(env, s, s', e, n);
  }

  lemma CommitNodeOk(env: Env, s: Sys, e: Epoch, n: Node)
    requires env.Ok() && Sound(env, s) && CanRequest(s, e, n, Commit)
    ensures NodeOk(DoRequest(s, e, n, Commit), n)
  {
    assert CycleInv(env, s, e);
    if s.cycles[e].gen != s.gen { OldLeader(env, s, e, n); }
  }

  lemma JoinStep(env: Env, s: Sys, e: Epoch, n: Node)
    requires env.Ok() && Sound(env, s) && CanRequest(s, e, n, Join)
    ensures Sound(env, DoRequest(s, e, n, Join))
  {
    JoinNodeOk(env, s, e, n);
    OneNodeStep(env, s, DoRequest(s, e, n, Join), e, n);
  }

  lemma JoinNodeOk(env: Env, s: Sys, e: Epoch, n: Node)
    requires env.Ok() && Sound(env, s) && CanRequest(s, e, n, Join)
    ensures NodeOk(DoRequest(s, e, n, Join), n) && Observes(s, e) && n in env.nodes
  {
    assert CycleInv(env, s, e);
    if s.cycles[e].gen != s.gen { OldLeader(env, s, e, n); }
  }

  // ---------------------------------------------------------------- contents change

  lemma ClientWriteStep(env: Env, s: Sys, n: Node, k: string, v: Option<string>)
    requires env.Ok() && Inv(env, s) && CanLocally(env, s, ClientWrite(n, k, v))
    ensures Sound(env, DoLocally(env, s, ClientWrite(n, k, v)))
  {
    var s' := DoLocally(env, s, ClientWrite(n, k, v));
    if Pending(s) { NobodyServes(env, s, n); }
    QuorateCluster(env, s, s.cfg[n].token);
    assert Shape(env, s') by {
      forall t | t in s'.clusters ensures ClusterShape(env, s', t) { assert ClusterShape(env, s, t); }
    }
    assert Contents(env, s') by {
      forall t | t in s'.clusters ensures !Newborn(s', t) { assert !Newborn(s, t); }
    }
    assert Nursery(s');
    forall e | e in s'.cycles ensures CycleInv(env, s', e) {
      if Unsuperseded(s, e) { NotCopying(env, s, e); }
      WrittenKnows(env, s, n, k, v, e);
    }
  }

  /** No cycle that relies on the contents is unsuperseded while clients write. */
  lemma WrittenKnows(env: Env, s: Sys, n: Node, k: string, v: Option<string>, e: Epoch)
    requires CanLocally(env, s, ClientWrite(n, k, v)) && e in s.cycles && CycleInv(env, s, e)
    requires s.cfg[n].token == s.cur && (Unsuperseded(s, e) ==> !s.cycles[e].pc.Copying?)
    ensures CycleInv(env, DoLocally(env, s, ClientWrite(n, k, v)), e)
  {
    ContentsCycleFrame(env, s, DoLocally(env, s, ClientWrite(n, k, v)), e);
  }

  lemma NotCopying(env: Env, s: Sys, e: Epoch)
    requires env.Ok() && Sound(env, s) && !Pending(s) && Unsuperseded(s, e)
    ensures !s.cycles[e].pc.Copying?
  {
    assert CycleInv(env, s, e);
    if s.cycles[e].pc.Copying? { HeldIsCurrent(env, s, e); }
  }

  lemma CopyStep(env: Env, s: Sys, e: Epoch, k: string)
    requires env.Ok() && Inv(env, s) && CanWrite(s, e, Copy(k)) && (env.memberCount <= 3 || Unsuperseded(s, e))
    ensures Sound(env, DoWrite(s, e, Copy(k)))
  {
    var s' := DoWrite(s, e, Copy(k));
    CopyTarget(env, s, e, k);
    CopiedContents(env, s, e, k);
    CopyShape(env, s, e, k);
    forall f | f in s'.cycles ensures CycleInv(env, s', f) {
      if f == e {
        CopierKnows(env, s, e, k);
      } else {
        CopiedKnows(env, s, e, k, f);
      }
    }
  }

  lemma CopyShape(env: Env, s: Sys, e: Epoch, k: string)
    requires Shape(env, s) && CanWrite(s, e, Copy(k))
    ensures Shape(env, DoWrite(s, e, Copy(k)))
  {
    var s' := DoWrite(s, e, Copy(k));
    forall u | u in s'.clusters ensures ClusterShape(env, s', u) { assert ClusterShape(env, s, u); }
  }

  lemma CopyFrame(env: Env, s: Sys, e: Epoch, k: string)
    requires CanWrite(s, e, Copy(k))
    ensures var s' := DoWrite(s, e, Copy(k));
            && SameMode(s, s') && SameButContents(s, s') && s'.cfg == s.cfg && s'.acc == s.acc
            && s'.clusters[s.cycles[e].pc.target].kv == s.clusters[s.cycles[e].pc.target].kv[k := s.cycles[e].pc.source[k]]
            && (forall u | u in s.clusters && u != s.cycles[e].pc.target :: s'.clusters[u] == s.clusters[u])
            && (forall f | f in s.cycles && f != e :: f in s'.cycles && s'.cycles[f] == s.cycles[f])
  {
  }

  lemma CopiedContents(env: Env, s: Sys, e: Epoch, k: string)
    requires env.Ok() && Sound(env, s) && CanWrite(s, e, Copy(k))
    requires Alive(s, s.cycles[e].pc.target) && s.created && s.queue == [s.cycles[e].pc.source]
    ensures Contents(env, DoWrite(s, e, Copy(k))) && Nursery(DoWrite(s, e, Copy(k)))
  {
    var s' := DoWrite(s, e, Copy(k));
    assert s.cycles[e].pc.source == s.acked;
    CopiedNursery(env, s, e, k);
    hide Nursery, CycleInv, Quorate;
    assert forall u :: Newborn(s', u) == Newborn(s, u);
    forall m | m in s'.cfg ensures Suspended(s', m) { assert Suspended(s, m); }
  }

  lemma CopiedNursery(env: Env, s: Sys, e: Epoch, k: string)
    requires Nursery(s) && CanWrite(s, e, Copy(k)) && s.cycles[e].pc.source == s.acked
    ensures Nursery(DoWrite(s, e, Copy(k)))
  {
    var s' := DoWrite(s, e, Copy(k));
    assert forall u :: Newborn(s', u) == Newborn(s, u);
    forall m | m in s'.cfg && Newborn(s', s'.cfg[m].token) ensures s'.cfg[m].quarantined && Tended(s', m) {
      assert Tended(s, m);
    }
    forall u | Newborn(s', u) ensures SubMap(s'.clusters[u].kv, s'.acked) { assert SubMap(s.clusters[u].kv, s.acked); }
  }

  /** A copy goes to a new cluster or puts what is there already, and its source is the queued backup. */
  lemma CopyTarget(env: Env, s: Sys, e: Epoch, k: string)
    requires env.Ok() && Inv(env, s) && CanWrite(s, e, Copy(k)) && (env.memberCount <= 3 || Unsuperseded(s, e))
    ensures s.created && s.queue == [s.cycles[e].pc.source] && s.cycles[e].pc.source == s.acked
    ensures Alive(s, s.cycles[e].pc.target)
  {
    assert CycleInv(env, s, e);
    SmallCopies(env, s, e);
    QuorateCluster(env, s, s.cycles[e].pc.target);
    if Unsuperseded(s, e) { HeldIsCurrent(env, s, e); }
  }

  lemma CopierKnows(env: Env, s: Sys, e: Epoch, k: string)
    requires CanWrite(s, e, Copy(k)) && CycleInv(env, s, e)
    ensures CycleInv(env, DoWrite(s, e, Copy(k)), e)
  {
    var s' := DoWrite(s, e, Copy(k));
    assert forall n :: Last(s', n, e) == Last(s, n, e);
    assert Unsuperseded(s', e) == Unsuperseded(s, e);
  }

  /** Another restore of the same backup keeps what it has copied. */
  lemma CopiedKnows(env: Env, s: Sys, e: Epoch, k: string, f: Epoch)
    requires env.Ok() && Sound(env, s) && CanWrite(s, e, Copy(k)) && f in s.cycles && f != e
    requires s.created && s.queue == [s.cycles[e].pc.source]
    ensures CycleInv(env, DoWrite(s, e, Copy(k)), f)
  {
    CopyFrame(env, s, e, k);
    assert CycleInv(env, s, f);
    if Unsuperseded(s, f) && s.cycles[f].pc.Copying? { HeldIsCurrent(env, s, f); }
    SameSourceFrame(env, s, DoWrite(s, e, Copy(k)), f, s.cycles[e].pc.target, k, s.cycles[e].pc.source);
  }

  lemma SameSourceFrame(env: Env, s: Sys, s': Sys, f: Epoch, t: Token, k: string, source: KeyValues)
    requires f in s.cycles && f in s'.cycles && s'.cycles[f] == s.cycles[f] && t in s.clusters && k in source
    requires SameMode(s, s') && SameButContents(s, s') && s'.cfg == s.cfg && s'.acc == s.acc
    requires s'.clusters[t].kv == s.clusters[t].kv[k := source[k]]
    requires forall u | u in s.clusters && u != t :: s'.clusters[u] == s.clusters[u]
    requires Unsuperseded(s, f) && s.cycles[f].pc.Copying? ==> s.cycles[f].pc.source == source
    requires CycleInv(env, s, f)
    ensures CycleInv(env, s', f)
  {
    ContentsLocalFrame(env, s, s', f);
    hide Local;
    assert Unsuperseded(s', f) == Unsuperseded(s, f);
  }

  // ---------------------------------------------------------------- changes of mode

  /** The change of mode by e supersedes every other cycle with a quorum of peers. */
  lemma OthersSuperseded(env: Env, s: Sys, e: Epoch, f: Epoch)
    requires env.Ok() && Sound(env, s) && Unsuperseded(s, e) && f in s.cycles && f != e
    requires Decided(s.cycles[e]) && |s.cycles[f].view| >= env.Q()
    ensures !Unsuperseded(s, f)
  {
    assert CycleInv(env, s, e);
    if Unsuperseded(s, f) { HeldUnique(env, s, e, f); }
  }

  /** What another cycle f knows survives e's change of mode. */
  lemma ModeFrame(env: Env, s: Sys, s': Sys, e: Epoch, f: Epoch)
    requires env.Ok() && Sound(env, s) && Unsuperseded(s, e) && Decided(s.cycles[e])
    requires f in s.cycles && f != e && f in s'.cycles && s'.cycles[f] == s.cycles[f]
    requires s'.acc == s.acc && s'.cfg == s.cfg && SameClusters(s, s')
    requires s'.gen == s.gen + 1 && s'.zone == s.cycles[e].view
    ensures CycleInv(env, s', f)
  {
    assert CycleInv(env, s, f);
    assert forall n :: Last(s', n, f) == Last(s, n, f);
    LocalFrame(env, s, s', f);
    hide Local, Sound;
    forall n | n in s'.zone ensures !Last(s', n, f) { assert Last(s, n, e); }
    if |s.cycles[f].view| >= env.Q() { OthersSuperseded(env, s, e, f); }
  }

  lemma AddCommandStep(env: Env, s: Sys, e: Epoch)
    requires env.Ok() && Sound(env, s) && CanWrite(s, e, AddCommand) && Unsuperseded(s, e)
    ensures Sound(env, DoWrite(s, e, AddCommand))
  {
    hide Local, Held, Nursery, Contents, Fence, Kind, Shape;
    var s' := DoWrite(s, e, AddCommand);
    QueueingIsCurrent(env, s, e);
    AddCommandContents(env, s, e);
    forall f | f in s'.cycles ensures CycleInv(env, s', f) {
      if f != e { ModeFrame(env, s, s', e, f); } else { HaltingKnows(env, s, e); }
    }
  }

  lemma AddCommandContents(env: Env, s: Sys, e: Epoch)
    requires env.Ok() && Sound(env, s) && CanWrite(s, e, AddCommand) && Unsuperseded(s, e)
    requires s.created && s.queue == []
    ensures var s' := DoWrite(s, e, AddCommand); Shape(env, s') && Contents(env, s') && Nursery(s')
  {
    hide Local, Held, Nursery, Contents, Fence, Kind;
    var s' := DoWrite(s, e, AddCommand);
    NobodyNew(env, s, s');
    SilencedIsSuspended(env, s, s', e);
    NoNursery(s');
    assert forall t | t in s'.clusters :: ClusterShape(env, s, t) && ClusterShape(env, s', t);
  }

  lemma NoNursery(s: Sys)
    requires forall t | t in s.clusters :: !Newborn(s, t)
    ensures Nursery(s)
  {
  }

  lemma QueueingIsCurrent(env: Env, s: Sys, e: Epoch)
    requires env.Ok() && Sound(env, s) && CanWrite(s, e, AddCommand) && Unsuperseded(s, e)
    ensures s.created && s.queue == [] && s.cycles[e].gen == s.gen
  {
    assert CycleInv(env, s, e);
    HeldIsCurrent(env, s, e);
  }

  /** After a change of mode no cluster counts as new. */
  lemma NobodyNew(env: Env, s: Sys, s': Sys)
    requires Shape(env, s) && s'.clusters == s.clusters && s'.gen == s.gen + 1
    ensures forall t | t in s'.clusters :: !Newborn(s', t) && ClusterShape(env, s', t)
  {
    assert forall t | t in s'.clusters :: ClusterShape(env, s, t);
  }

  lemma HaltingKnows(env: Env, s: Sys, e: Epoch)
    requires CanWrite(s, e, AddCommand) && CycleInv(env, s, e) && s.created
    ensures CycleInv(env, DoWrite(s, e, AddCommand), e)
  {
  }

  lemma SilencedIsSuspended(env: Env, s: Sys, s': Sys, e: Epoch)
    requires env.Ok() && Sound(env, s) && CanWrite(s, e, AddCommand) && Unsuperseded(s, e)
    requires s.created && s.queue == [] && s' == CommandAdded(s, e)
    requires forall t | t in s'.clusters :: !Newborn(s', t)
    ensures Contents(env, s')
  {
    assert CycleInv(env, s, e);
    assert Silenced(s, s.cycles[e].view, {});
    forall n | n in s'.cfg ensures Suspended(s', n) {}
  }

  /** The cluster t has it all, and carries the data from now on. */
  lemma SettledStep(env: Env, s: Sys, s': Sys, e: Epoch, t: Token)
    requires env.Ok() && Sound(env, s) && Unsuperseded(s, e) && Decided(s.cycles[e])
    requires t in s.clusters && s.clusters[t].kv == s.acked && (env.memberCount <= 3 ==> s.clusters[t].maker == e)
    requires s' == Settled(s, e, t).(created := true, queue := [], caches := s'.caches)
    requires s.caches.Keys <= s'.caches.Keys
    ensures Sound(env, s')
  {
    assert CycleInv(env, s, e);
    NobodyNew(env, s, s');
    forall f | f in s'.cycles ensures CycleInv(env, s', f) { ModeFrame(env, s, s', e, f); }
  }

  lemma MarkStep(env: Env, s: Sys, e: Epoch)
    requires env.Ok() && Sound(env, s) && CanWrite(s, e, Mark) && Unsuperseded(s, e)
    ensures Sound(env, DoWrite(s, e, Mark))
  {
    var s' := DoWrite(s, e, Mark);
    var pc := s.cycles[e].pc;
    assert CycleInv(env, s, e);
    HeldIsCurrent(env, s, e);
    assert s.queue == [] && SubMap(s.clusters[pc.token].kv, s.acked);
    assert s.clusters[pc.token].kv == map[];
    SettledStep(env, s, s', e, pc.token);
  }

  lemma RemoveCommandStep(env: Env, s: Sys, e: Epoch)
    requires env.Ok() && Sound(env, s) && CanWrite(s, e, RemoveCommand) && Unsuperseded(s, e)
    ensures Sound(env, DoWrite(s, e, RemoveCommand))
  {
    RestoredContents(env, s, e);
    SmallCopies(env, s, e);
    SettledStep(env, s, DoWrite(s, e, RemoveCommand), e, s.cycles[e].pc.target);
  }

  /** When the copy is complete its target has every acknowledged write. */
  lemma RestoredContents(env: Env, s: Sys, e: Epoch)
    requires env.Ok() && Sound(env, s) && CanWrite(s, e, RemoveCommand) && Unsuperseded(s, e)
    ensures s.created && s.queue == [s.acked] && s.cycles[e].pc.target in s.clusters
    ensures s.clusters[s.cycles[e].pc.target].kv == s.acked
  {
    var pc := s.cycles[e].pc;
    assert CycleInv(env, s, e);
    HeldIsCurrent(env, s, e);
    assert pc.source == s.acked && Alive(s, pc.target);
    assert Newborn(s, pc.target) ==> SubMap(s.clusters[pc.target].kv, s.acked);
  }

  /** With a desired size of at most three, every copy goes to a cluster that the cycle made itself. */
  lemma SmallCopies(env: Env, s: Sys, e: Epoch)
    requires env.Ok() && Sound(env, s) && e in s.cycles && s.cycles[e].pc.Copying?
    ensures env.memberCount <= 3 ==> PlanKnown(env, s, e, s.cycles[e].pc.target, s.cycles[e].pc.plan)
  {
    assert CycleInv(env, s, e);
    if env.memberCount <= 3 { SmallNeverShort(|s.cycles[e].view|, env.memberCount); }
  }

  // ---------------------------------------------------------------- clusters start and grow

  lemma ChooseCreateStep(env: Env, s: Sys, e: Epoch, t: Token, plan: set<Node>)
    requires env.Ok() && Sound(env, s) && CanStep(env, s, ChooseCreate(e, t, plan)) && DisciplinedStep(s, ChooseCreate(e, t, plan))
    ensures Sound(env, DoStep(env, s, ChooseCreate(e, t, plan)))
  {
    var s' := DoStep(env, s, ChooseCreate(e, t, plan));
    CreateMode(env, s, e);
    ProposalKeepsQuorum(|s.cycles[e].view|, env.memberCount);
    CreateShape(env, s, e, t, plan);
    CreateContents(env, s, e, t, plan);
    forall f | f in s'.cycles ensures CycleInv(env, s', f) {
      if f == e { CreatorKnows(env, s, e, t, plan); } else { CreatedKnows(env, s, e, t, plan, f); }
    }
  }

  lemma CreateShape(env: Env, s: Sys, e: Epoch, t: Token, plan: set<Node>)
    requires env.Ok() && Shape(env, s) && CanStep(env, s, ChooseCreate(e, t, plan))
    requires QuorumSize(|plan|) >= env.Q() && (s.created ==> s.cur in s.clusters)
    ensures Shape(env, DoStep(env, s, ChooseCreate(e, t, plan)))
  {
    var s' := DoStep(env, s, ChooseCreate(e, t, plan));
    forall u | u in s'.clusters ensures ClusterShape(env, s', u) { assert u != t ==> ClusterShape(env, s, u); }
  }

  lemma CreatedKnows(env: Env, s: Sys, e: Epoch, t: Token, plan: set<Node>, f: Epoch)
    requires CanStep(env, s, ChooseCreate(e, t, plan)) && f in s.cycles && f != e && CycleInv(env, s, f)
    ensures CycleInv(env, DoStep(env, s, ChooseCreate(e, t, plan)), f)
  {
    CycleFrame(env, s, DoStep(env, s, ChooseCreate(e, t, plan)), f);
  }

  lemma CreateMode(env: Env, s: Sys, e: Epoch)
    requires Sound(env, s) && At(s, e) && (s.created ==> UpToDate(s, e) && s.caches[s.cycles[e].owner] != [])
    ensures Pending(s)
    ensures GoalOf(s, e) == (if s.created then Restore(s.acked) else Fresh)
    ensures s.created ==> s.queue == [s.acked]
  {
  }

  lemma CreateContents(env: Env, s: Sys, e: Epoch, t: Token, plan: set<Node>)
    requires env.Ok() && Sound(env, s) && CanStep(env, s, ChooseCreate(e, t, plan)) && Pending(s)
    ensures var s' := DoStep(env, s, ChooseCreate(e, t, plan));
            Contents(env, s') && Nursery(s')
  {
    var s' := DoStep(env, s, ChooseCreate(e, t, plan));
    assert forall u | u != t :: Newborn(s', u) == Newborn(s, u);
    if s.created {
      forall m | m in s'.cfg ensures Suspended(s', m) { assert Suspended(s, m); }
    }
    forall m | m in s'.cfg && Newborn(s', s'.cfg[m].token) ensures s'.cfg[m].quarantined && Tended(s', m) {
      assert Newborn(s, s.cfg[m].token) && Tended(s, m);
    }
    forall u | Newborn(s', u) ensures SubMap(s'.clusters[u].kv, s'.acked) {
      assert u != t ==> SubMap(s.clusters[u].kv, s.acked);
    }
  }

  lemma CreatorKnows(env: Env, s: Sys, e: Epoch, t: Token, plan: set<Node>)
    requires CanStep(env, s, ChooseCreate(e, t, plan)) && CycleInv(env, s, e) && env.memberCount >= 1
    requires GoalOf(s, e) == (if s.created then Restore(s.acked) else Fresh) && (s.created ==> s.queue == [s.acked])
    requires |plan| >= env.Q()
    ensures CycleInv(env, DoStep(env, s, ChooseCreate(e, t, plan)), e)
  {
    var s' := DoStep(env, s, ChooseCreate(e, t, plan));
    forall n | n in s'.cycles[e].view && Last(s', n, e) ensures ProgressAt(s', s'.cycles[e].pc, n) {
      assert Last(s, n, e);
    }
  }

  /** Growing the membership needs no discipline. A cluster that can grow lacks just one machine, so it is
      not one that a full survey or a pending restore relies on. */
  lemma AddMemberStep(env: Env, s: Sys, e: Epoch)
    requires env.Ok() && Inv(env, s) && CanWrite(s, e, AddMember)
    ensures Sound(env, DoWrite(s, e, AddMember))
  {
    hide Local, Held, Fence, Kind, Nursery, Contents, Shape;
    AdderKnows(env, s, e);
    if s.cycles[e].pc.joiner in s.clusters[s.cycles[e].obs.value].members {
      AddedAgain(env, s, e);
    } else {
      var s' := DoWrite(s, e, AddMember);
      GrowingIsIncomplete(env, s, e);
      AddMemberShape(env, s, e);
      AddMemberContents(env, s, e);
      forall f | f in s'.cycles ensures CycleInv(env, s', f) {
        if f != e { AddedKnows(env, s, e, f); }
      }
    }
  }

  lemma AddedAgain(env: Env, s: Sys, e: Epoch)
    requires env.Ok() && Sound(env, s) && CanWrite(s, e, AddMember) && CycleInv(env, DoWrite(s, e, AddMember), e)
    requires s.cycles[e].pc.joiner in s.clusters[s.cycles[e].obs.value].members
    ensures Sound(env, DoWrite(s, e, AddMember))
  {
    hide Local, Held, Fence, Kind, Nursery, Contents, Shape, CycleInv, Inv;
    var o := s.cycles[e].obs.value;
    assert s.clusters[o].members + {s.cycles[e].pc.joiner} == s.clusters[o].members;
    assert s.clusters[o := s.clusters[o]] == s.clusters;
    OwnRecordStep(env, s, e, DoWrite(s, e, AddMember).cycles[e]);
  }

  lemma GrowingIsIncomplete(env: Env, s: Sys, e: Epoch)
    requires env.Ok() && Shape(env, s) && CanWrite(s, e, AddMember) && CycleInv(env, s, e)
    requires s.cycles[e].pc.joiner !in s.clusters[s.cycles[e].obs.value].members
    ensures |s.clusters[s.cycles[e].obs.value].members| < env.memberCount && s.cycles[e].pc.joiner in env.nodes
  {
    var o := s.cycles[e].obs.value;
    assert ClusterShape(env, s, o);
    SubsetSize(s.clusters[o].members + {s.cycles[e].pc.joiner}, env.nodes);
  }

  lemma AddMemberShape(env: Env, s: Sys, e: Epoch)
    requires Shape(env, s) && CanWrite(s, e, AddMember) && s.cycles[e].pc.joiner in env.nodes
    ensures Shape(env, DoWrite(s, e, AddMember))
  {
    var s' := DoWrite(s, e, AddMember);
    var o := s.cycles[e].obs.value;
    SubsetSize(s.clusters[o].members, s'.clusters[o].members);
    QuorumMonotone(|s.clusters[o].members|, |s'.clusters[o].members|);
    forall u | u in s'.clusters ensures ClusterShape(env, s', u) { assert ClusterShape(env, s, u); }
  }

  lemma AddMemberContents(env: Env, s: Sys, e: Epoch)
    requires env.Ok() && Inv(env, s) && CanWrite(s, e, AddMember)
    requires |s.clusters[s.cycles[e].obs.value].members| < env.memberCount
    ensures Contents(env, DoWrite(s, e, AddMember)) && Nursery(DoWrite(s, e, AddMember))
  {
    var s' := DoWrite(s, e, AddMember);
    GrowingIsCurrent(env, s, e);
    assert forall u | u in s'.clusters :: Newborn(s', u) == Newborn(s, u);
    NoNursery(s');
  }

  /** Only the cluster that carries the data grows, and only while nothing is pending. */
  lemma GrowingIsCurrent(env: Env, s: Sys, e: Epoch)
    requires env.Ok() && Inv(env, s) && CanWrite(s, e, AddMember)
    requires |s.clusters[s.cycles[e].obs.value].members| < env.memberCount
    ensures !Pending(s) && s.cycles[e].obs == Some(s.cur)
  {
    assert CycleInv(env, s, e);
    QuorateCluster(env, s, s.cycles[e].obs.value);
  }

  lemma AdderKnows(env: Env, s: Sys, e: Epoch)
    requires CanWrite(s, e, AddMember) && CycleInv(env, s, e)
    ensures CycleInv(env, DoWrite(s, e, AddMember), e)
  {
    var s' := DoWrite(s, e, AddMember);
    assert forall n :: Last(s', n, e) == Last(s, n, e);
  }

  lemma AddedKnows(env: Env, s: Sys, e: Epoch, f: Epoch)
    requires CanWrite(s, e, AddMember) && f in s.cycles && f != e && CycleInv(env, s, f)
    requires |s.clusters[s.cycles[e].obs.value].members| < env.memberCount
    ensures CycleInv(env, DoWrite(s, e, AddMember), f)
  {
    var s' := DoWrite(s, e, AddMember);
    assert forall n :: Last(s', n, f) == Last(s, n, f);
    assert Unsuperseded(s', f) == Unsuperseded(s, f);
    AddedLocal(env, s, e, f);
    hide Local;
    assert s'.cycles[f] == s.cycles[f];
    AddedHeld(env, s, e, f);
    hide Held;
  }

  lemma AddedLocal(env: Env, s: Sys, e: Epoch, f: Epoch)
    requires CanWrite(s, e, AddMember) && f in s.cycles && f != e && Local(env, s, f)
    ensures Local(env, DoWrite(s, e, AddMember), f)
  {
    var s' := DoWrite(s, e, AddMember);
    var o := s.cycles[e].obs.value;
    SubsetSize(s.clusters[o].members, s'.clusters[o].members);
    assert forall n :: Last(s', n, f) == Last(s, n, f);
  }

  lemma AddedHeld(env: Env, s: Sys, e: Epoch, f: Epoch)
    requires CanWrite(s, e, AddMember) && f in s.cycles && f != e && Local(env, s, f) && Held(env, s, f)
    requires |s.clusters[s.cycles[e].obs.value].members| < env.memberCount
    ensures var s' := DoWrite(s, e, AddMember); (s'.cycles[f].obs.Some? ==> s'.cycles[f].obs.value in s'.clusters) && Held(env, s', f)
  {
    var s' := DoWrite(s, e, AddMember);
    assert forall n :: Last(s', n, f) == Last(s, n, f);
    assert Unsuperseded(s', f) == Unsuperseded(s, f);
  }
}
