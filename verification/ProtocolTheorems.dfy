/** What holds in every run. */
module ProtocolTheorems {
  import opened Quorum
  import opened Protocol
  import opened ProtocolInvariant
  import opened ProtocolSteps
  import opened ProtocolRivals

  lemma LocalStep(env: Env, s: Sys, a: LocalAction)
    requires env.Ok() && Inv(env, s) && CanLocally(env, s, a)
    ensures Inv(env, DoLocally(env, s, a))
  {
    LocalSameEra(env, s, a);
    if a.ClientWrite? { ClientWriteStep(env, s, a.n, a.key, a.value); } else { RestStep(env, s, a); }
    hide Calm, Rivals, Sound, SameEra, DoLocally, CanLocally;
    LocalRivals(env, s, a);
    CalmStep(env, s, DoLocally(env, s, a));
  }

  lemma LocalSameEra(env: Env, s: Sys, a: LocalAction)
    requires CanLocally(env, s, a)
    ensures SameEra(s, DoLocally(env, s, a))
  {
  }

  lemma ControllerSound(env: Env, s: Sys, a: CycleAction)
    requires env.Ok() && Inv(env, s) && CanStep(env, s, a) && DisciplinedStep(s, a)
    ensures Sound(env, DoStep(env, s, a))
  {
    assert Sound(env, s);
    hide *;
    match a
    case Start(owner, view) => StartStep(env, s, owner, view);
    case Assert(e, n) => AssertStep(env, s, e, n);
    case End(e) => EndStep(env, s, e);
    case Survey(e, obs, mismatch) => SurveyStep(env, s, e, obs, mismatch);
    case ChooseLift(e) => ChooseLiftStep(env, s, e);
    case ChooseUpgrade(e) => ChooseUpgradeStep(env, s, e);
    case ChooseCreate(e, t, plan) => ChooseCreateStep(env, s, e, t, plan);
    case ChooseRestore(e) => ChooseRestoreStep(env, s, e);
    case ChooseExpand(e, m) => ChooseExpandStep(env, s, e, m);
    case BeginPrepare(e) => BeginPrepareStep(env, s, e);
    case BeginCommit(e) => BeginCommitStep(env, s, e);
  }

  lemma ControllerCalm(env: Env, s: Sys, a: CycleAction)
    requires env.Ok() && Inv(env, s) && CanStep(env, s, a)
    ensures Calm(env, s, DoStep(env, s, a))
  {
    hide Calm, Inv, CanStep, DoStep;
    match a
    case Start(owner, view) => StartRivals(env, s, owner, view);
    case Assert(e, n) => AssertRivals(env, s, e, n);
    case Survey(e, obs, mismatch) => SurveyRivals(env, s, e, obs, mismatch);
    case _ => ChoiceRivals(env, s, a);
  }

  lemma ControllerRivals(env: Env, s: Sys, a: CycleAction)
    requires env.Ok() && Inv(env, s) && CanStep(env, s, a)
    ensures Rivals(env, DoStep(env, s, a))
  {
    if a.ChooseCreate? {
      CreateRivals(env, s, a.e, a.t, a.plan);
    } else {
      ControllerSameEra(env, s, a);
      ControllerCalm(env, s, a);
      hide Calm, Rivals, Sound, SameEra, CanStep, DoStep;
      CalmStep(env, s, DoStep(env, s, a));
    }
  }

  lemma ControllerSameEra(env: Env, s: Sys, a: CycleAction)
    requires CanStep(env, s, a) && !a.ChooseCreate?
    ensures SameEra(s, DoStep(env, s, a))
  {
    hide FullyHealthy, Ready, Healthy;
  }

  lemma ControllerStep(env: Env, s: Sys, a: CycleAction)
    requires env.Ok() && Inv(env, s) && CanStep(env, s, a) && DisciplinedStep(s, a)
    ensures Inv(env, DoStep(env, s, a))
  {
    ControllerSound(env, s, a);
    ControllerRivals(env, s, a);
  }

  lemma RequestSound(env: Env, s: Sys, e: Epoch, n: Node, r: Request)
    requires env.Ok() && Sound(env, s) && CanRequest(s, e, n, r)
    ensures Sound(env, DoRequest(s, e, n, r))
  {
    hide *;
    match r
    case Silence => SilenceStep(env, s, e, n);
    case Resend => ResendStep(env, s, e, n);
    case Lift => LiftStep(env, s, e, n);
    case Quarantine => QuarantineStep(env, s, e, n);
    case Dump => DumpStep(env, s, e, n);
    case Halt => HaltStep(env, s, e, n);
    case Clear => ClearStep(env, s, e, n);
    case Prepare => PrepareStep(env, s, e, n);
    case Commit => CommitStep(env, s, e, n);
    case BeginCopy => BeginCopyStep(env, s, e, n);
    case PrepareJoin => PrepareJoinStep(env, s, e, n);
    case Join => JoinStep(env, s, e, n);
  }

  lemma RequestSameEra(s: Sys, e: Epoch, n: Node, r: Request)
    requires CanRequest(s, e, n, r)
    ensures SameEra(s, DoRequest(s, e, n, r))
  {
  }

  lemma RequestStep(env: Env, s: Sys, e: Epoch, n: Node, r: Request)
    requires env.Ok() && Inv(env, s) && CanRequest(s, e, n, r)
    ensures Inv(env, DoRequest(s, e, n, r))
  {
    RequestSameEra(s, e, n, r);
    hide Calm, Rivals, Sound, SameEra, DoRequest, CanRequest;
    RequestSound(env, s, e, n, r);
    RequestRivals(env, s, e, n, r);
    CalmStep(env, s, DoRequest(s, e, n, r));
  }

  lemma WriteStep(env: Env, s: Sys, e: Epoch, w: Write)
    requires env.Ok() && Inv(env, s) && CanWrite(s, e, w) && Disciplined(env, s, Unfenced(e, w))
    ensures Inv(env, DoWrite(s, e, w))
  {
    assert Sound(env, s);
    hide Sound, Rivals, CanWrite, DoWrite, Unsuperseded;
    match w
    case AddCommand => AddCommandStep(env, s, e); AddCommandRivals(env, s, e);
    case RemoveCommand => RemoveCommandStep(env, s, e); RemoveCommandRivals(env, s, e);
    case Mark => MarkStep(env, s, e); MarkRivals(env, s, e);
    case AddMember => AddMemberStep(env, s, e); AddMemberRivals(env, s, e);
    case Copy(k) => CopyStep(env, s, e, k); CopyRivals(env, s, e, k);
  }

  lemma StepKeepsInv(env: Env, s: Sys, a: Action)
    requires env.Ok() && Inv(env, s) && Guard(env, s, a) && Disciplined(env, s, a)
    ensures Inv(env, Apply(env, s, a))
  {
    hide Inv, CanLocally, CanStep, CanRequest, CanWrite;
    match a
    case Locally(local) => LocalStep(env, s, local);
    case Controller(step) => ControllerStep(env, s, step);
    case Rpc(e, n, r) => RequestStep(env, s, e, n, r);
    case Unfenced(e, w) => WriteStep(env, s, e, w);
  }

  lemma InitialInv(env: Env)
    requires env.Ok()
    ensures Inv(env, Initial(env)) && Sized(env, Initial(env))
  {
  }

  lemma {:induction false} RunKeepsInv(env: Env, states: seq<Sys>, actions: seq<Action>, i: nat)
    requires env.Ok() && DisciplinedRun(env, states, actions) && i < |states|
    ensures Inv(env, states[i])
  {
    if i == 0 {
      InitialInv(env);
    } else {
      RunKeepsInv(env, states, actions, i - 1);
      StepKeepsInv(env, states[i - 1], actions[i - 1]);
    }
  }

  /** Main theorem. In every disciplined run, however requests, crashes, restarts, leader changes and
      client writes interleave, at every moment whatever a client can read through any node is the
      result of exactly the writes acknowledged so far: the dump-and-restore upgrade loses none and
      shows none half-restored. */
  lemma NoAcknowledgedWriteIsLost(env: Env, states: seq<Sys>, actions: seq<Action>, i: nat, n: Node)
    requires env.Ok() && DisciplinedRun(env, states, actions) && i < |states|
    requires Serving(states[i], n)
    ensures states[i].clusters[states[i].cfg[n].token].kv == states[i].acked
  {
    RunKeepsInv(env, states, actions, i);
    InvIsFaithful(env, states[i]);
  }

  // ---------------------------------------------------------------- replaced clusters

  /** No step, disciplined or not, lets a weak cluster recover. */
  lemma StepKeepsWeak(env: Env, s: Sys, a: Action, t: Token)
    requires env.Ok() && Inv(env, s) && Guard(env, s, a) && t in s.clusters && Weak(env, s, t)
    ensures t in Apply(env, s, a).clusters && Weak(env, Apply(env, s, a), t)
  {
    hide Inv, CanLocally, CanStep, CanRequest, DoLocally, DoStep, DoRequest, DoWrite, Weak;
    match a
    case Locally(local) => LocalRivals(env, s, local); CalmKeeps(env, s, Apply(env, s, a), t);
    case Controller(step) => ControllerCalm(env, s, step); CalmKeeps(env, s, Apply(env, s, a), t);
    case Rpc(e, n, r) => RequestRivals(env, s, e, n, r); CalmKeeps(env, s, Apply(env, s, a), t);
    case Unfenced(e, w) =>
      if w.AddMember? {
        GrowthKeeps(env, s, e, t);
      } else {
        WriteRivals(env, s, e, w);
        CalmKeeps(env, s, Apply(env, s, a), t);
      }
  }

  lemma CalmKeeps(env: Env, s: Sys, s': Sys, t: Token)
    requires Calm(env, s, s') && t in s.clusters && Weak(env, s, t)
    ensures t in s'.clusters && Weak(env, s', t)
  {
    CalmWeak(env, s, s');
  }

  lemma GrowthKeeps(env: Env, s: Sys, e: Epoch, t: Token)
    requires Inv(env, s) && CanWrite(s, e, AddMember) && t in s.clusters && Weak(env, s, t)
    ensures t in DoWrite(s, e, AddMember).clusters && Weak(env, DoWrite(s, e, AddMember), t)
  {
    GrownIsNotWeak(env, s, e);
    OthersDoNotGrow(env, s, e, t);
  }

  lemma {:induction false} WeakForever(env: Env, states: seq<Sys>, actions: seq<Action>, i: nat, j: nat, t: Token)
    requires env.Ok() && DisciplinedRun(env, states, actions) && i <= j < |states|
    requires t in states[i].clusters && Weak(env, states[i], t)
    ensures t in states[j].clusters && Weak(env, states[j], t)
    decreases j - i
  {
    hide Weak, Apply, Guard;
    if i < j {
      WeakForever(env, states, actions, i, j - 1, t);
      RunKeepsInv(env, states, actions, j - 1);
      StepKeepsWeak(env, states[j - 1], actions[j - 1], t);
    }
  }

  /** A cluster that has been replaced never has a quorum again: from the first mark on, that is every cluster
      but the current one and those started since the last change of mode. So no late commit, join or restart
      of a node, and no superseded leader, brings old data back. */
  lemma ReplacedForGood(env: Env, states: seq<Sys>, actions: seq<Action>, i: nat, j: nat, t: Token)
    requires env.Ok() && DisciplinedRun(env, states, actions) && i <= j < |states|
    requires states[i].created && t in states[i].clusters && t != states[i].cur && !Newborn(states[i], t)
    ensures !Quorate(states[j], t)
  {
    RunKeepsInv(env, states, actions, i);
    WeakForever(env, states, actions, i, j, t);
    RunKeepsInv(env, states, actions, j);
    if Quorate(states[j], t) {
      assert ClusterShape(env, states[j], t);
      QuorateIsNotWeak(env, states[j], t);
    }
  }

  // ---------------------------------------------------------------- no discipline needed

  lemma CreateKeepsSized(env: Env, s: Sys, e: Epoch, t: Token, plan: set<Node>)
    requires env.Ok() && Sized(env, s) && CanStep(env, s, ChooseCreate(e, t, plan))
    ensures Sized(env, DoStep(env, s, ChooseCreate(e, t, plan)))
  {
    assert SizedCycle(env, s.cycles[e]);
    ProposalKeepsQuorum(|s.cycles[e].view|, env.memberCount);
  }

  lemma ControllerKeepsSized(env: Env, s: Sys, a: CycleAction)
    requires env.Ok() && Sized(env, s) && CanStep(env, s, a)
    ensures Sized(env, DoStep(env, s, a))
  {
    if a.ChooseCreate? {
      CreateKeepsSized(env, s, a.e, a.t, a.plan);
    } else {
      var s' := DoStep(env, s, a);
      if a.ChooseExpand? { assert SizedCluster(env, s.clusters[s.cycles[a.e].obs.value]); }
      forall e | e in s'.cycles ensures SizedCycle(env, s'.cycles[e]) { assert e in s.cycles ==> SizedCycle(env, s.cycles[e]); }
    }
  }

  lemma RequestKeepsSized(env: Env, s: Sys, e: Epoch, n: Node, r: Request)
    requires env.Ok() && Sized(env, s) && CanRequest(s, e, n, r)
    ensures Sized(env, DoRequest(s, e, n, r))
  {
    var s' := DoRequest(s, e, n, r);
    assert SizedCycle(env, s.cycles[e]);
    RequestFrame(s, e, n, r);
    if e in s'.cycles { RequestRecord(s, e, n, r); }
    hide CanRequest, DoRequest, SizedCluster, Fenced;
    forall f | f in s'.cycles ensures SizedCycle(env, s'.cycles[f]) { assert SizedCycle(env, s.cycles[f]); }
  }

  lemma RequestFrame(s: Sys, e: Epoch, n: Node, r: Request)
    requires CanRequest(s, e, n, r)
    ensures var s' := DoRequest(s, e, n, r);
            && e in s.cycles && n in s.cycles[e].view && s'.cfg.Keys <= s.cfg.Keys + {n} && s'.clusters == s.clusters
            && s'.cycles.Keys <= s.cycles.Keys && forall f | f in s'.cycles && f != e :: s'.cycles[f] == s.cycles[f]
  {
  }

  /** What a request keeps of the record of its cycle. */
  predicate SameStance(c: Cycle, c': Cycle) {
    && c'.view == c.view && c'.idle == c.idle && Decided(c') == Decided(c)
    && (c'.pc.Expanding? ==> c.pc.Expanding? && c'.pc.joiner == c.pc.joiner)
  }

  lemma RequestRecord(s: Sys, e: Epoch, n: Node, r: Request)
    requires CanRequest(s, e, n, r) && e in s.cycles && e in DoRequest(s, e, n, r).cycles
    ensures SameStance(s.cycles[e], DoRequest(s, e, n, r).cycles[e])
  {
    hide SameStance;
    if s.cycles[e].pc.Creating? || s.cycles[e].pc.Restoring? { CreationRecord(s, e, n, r); } else { OtherRecord(s, e, n, r); }
  }

  lemma CreationRecord(s: Sys, e: Epoch, n: Node, r: Request)
    requires CanRequest(s, e, n, r) && e in s.cycles && (s.cycles[e].pc.Creating? || s.cycles[e].pc.Restoring?)
    ensures e in DoRequest(s, e, n, r).cycles && SameStance(s.cycles[e], DoRequest(s, e, n, r).cycles[e])
  {
  }

  lemma OtherRecord(s: Sys, e: Epoch, n: Node, r: Request)
    requires CanRequest(s, e, n, r) && e in s.cycles && !s.cycles[e].pc.Creating? && !s.cycles[e].pc.Restoring?
    ensures e in DoRequest(s, e, n, r).cycles ==> SameStance(s.cycles[e], DoRequest(s, e, n, r).cycles[e])
  {
  }

  lemma WriteKeepsSized(env: Env, s: Sys, e: Epoch, w: Write)
    requires env.Ok() && Sized(env, s) && CanWrite(s, e, w)
    ensures Sized(env, DoWrite(s, e, w))
  {
    assert SizedCycle(env, s.cycles[e]);
    if w.AddMember? {
      var o := s.cycles[e].obs.value;
      var grown := s.clusters[o].members + {s.cycles[e].pc.joiner};
      SubsetSize(s.clusters[o].members, grown);
      QuorumMonotone(|s.clusters[o].members|, |grown|);
      assert SizedCluster(env, s.clusters[o]);
    } else if w.Copy? {
      assert SizedCluster(env, s.clusters[s.cycles[e].pc.target]);
    }
  }

  lemma LocalKeepsSized(env: Env, s: Sys, a: LocalAction)
    requires env.Ok() && Sized(env, s) && CanLocally(env, s, a)
    ensures Sized(env, DoLocally(env, s, a))
  {
    if a.ClientWrite? { assert SizedCluster(env, s.clusters[s.cfg[a.n].token]); }
  }

  lemma StepKeepsSized(env: Env, s: Sys, a: Action)
    requires env.Ok() && Sized(env, s) && Guard(env, s, a)
    ensures Sized(env, Apply(env, s, a))
  {
    match a
    case Locally(local) => LocalKeepsSized(env, s, local);
    case Controller(step) => ControllerKeepsSized(env, s, step);
    case Rpc(e, n, r) => RequestKeepsSized(env, s, e, n, r);
    case Unfenced(e, w) => WriteKeepsSized(env, s, e, w);
  }

  lemma {:induction false} RunKeepsSized(env: Env, states: seq<Sys>, actions: seq<Action>, i: nat)
    requires env.Ok() && Run(env, states, actions) && i < |states|
    ensures Sized(env, states[i])
  {
    if i == 0 {
      InitialInv(env);
    } else {
      RunKeepsSized(env, states, actions, i - 1);
      StepKeepsSized(env, states[i - 1], actions[i - 1]);
    }
  }

  /** With fewer than two quorums of machines, in every run whatsoever no two clusters have a quorum
      at the same time. */
  lemma AtMostOneQuorateCluster(env: Env, states: seq<Sys>, actions: seq<Action>, i: nat, t: Token, u: Token)
    requires env.Ok() && Run(env, states, actions) && i < |states|
    requires Quorate(states[i], t) && Quorate(states[i], u)
    ensures t == u
  {
    RunKeepsSized(env, states, actions, i);
    OneQuorate(env, states[i], t, u);
  }

  // ---------------------------------------------------------------- removals

  /** A surveyed cycle comes to a branch that removes a member: there are more configured peers, or more
      members, than desired. */
  predicate RemovalDue(env: Env, s: Sys, e: Epoch) {
    && Unhindered(s, e) && Observes(s, e)
    && (|s.cycles[e].view - s.cycles[e].idle| > env.memberCount || |s.clusters[s.cycles[e].obs.value].members| > env.memberCount)
  }

  /** Without spare machines, no run comes to the removal of a member. For odd sizes there are none. */
  lemma NoRemovalIsDue(env: Env, states: seq<Sys>, actions: seq<Action>, i: nat, e: Epoch)
    requires env.Ok() && Run(env, states, actions) && i < |states|
    ensures |env.nodes| <= env.memberCount ==> !RemovalDue(env, states[i], e)
    ensures env.memberCount % 2 == 1 ==> |env.nodes| <= env.memberCount
  {
    RunKeepsSized(env, states, actions, i);
    var s := states[i];
    if Unhindered(s, e) && Observes(s, e) {
      assert SizedCycle(env, s.cycles[e]) && SizedCluster(env, s.clusters[s.cycles[e].obs.value]);
      SubsetSize(s.cycles[e].view - s.cycles[e].idle, env.nodes);
      SubsetSize(s.clusters[s.cycles[e].obs.value].members, env.nodes);
    }
  }
}
