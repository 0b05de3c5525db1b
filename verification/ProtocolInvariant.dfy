/** The inductive invariant behind the safety theorems. */
module ProtocolInvariant {
  import opened Options
  import opened Quorum
  import opened Protocol

  /** Sizes and references. */
  ghost predicate Shape(env: Env, s: Sys) {
    && s.cfg.Keys <= env.nodes && s.up <= s.cfg.Keys && env.nodes <= s.caches.Keys
    && (forall n | n in s.cfg :: s.cfg[n].token in s.clusters)
    && (forall t | t in s.clusters :: ClusterShape(env, s, t))
    && (forall n | n in s.acc :: s.acc[n] < s.nextEpoch)
    && (forall e | e in s.cycles :: e < s.nextEpoch && s.cycles[e].owner in s.cycles[e].view && s.cycles[e].view <= env.nodes)
    && (env.memberCount <= 3 && s.created && s.cur in s.clusters ==>
          s.clusters[s.cur].maker < s.nextEpoch && s.clusters[s.cur].maker !in s.cycles)
  }

  ghost predicate ClusterShape(env: Env, s: Sys, t: Token)
    requires t in s.clusters
  {
    SizedCluster(env, s.clusters[t]) && s.clusters[t].born <= s.gen
  }

  predicate Pending(s: Sys) {
    !s.created || s.queue != []
  }

  /** Cluster t was started since the last change of mode. */
  predicate Newborn(s: Sys, t: Token) {
    t in s.clusters && s.clusters[t].born == s.gen
  }

  /** Before the first cluster is settled there is nothing to lose; afterwards `cur` has it all. */
  ghost predicate Contents(env: Env, s: Sys) {
    if !s.created then
      s.queue == [] && s.acked == map[] && s.gen == 0
    else
      && s.gen > 0
      && s.cur in s.clusters && s.clusters[s.cur].kv == s.acked && !Newborn(s, s.cur)
      && |s.zone| >= env.Q() && s.zone <= env.nodes
      && (if s.queue == [] then forall t | t in s.clusters :: !Newborn(s, t)
          else Suspension(s) && |s.clusters[s.cur].members| >= env.memberCount)
  }

  /** A restore is pending: its backup has every acknowledged write, and the members of the old cluster
      are quarantined. */
  ghost predicate Suspension(s: Sys)
    requires s.cur in s.clusters
  {
    && s.queue == [s.acked]
    && s.clusters[s.cur].members <= s.zone
    && (forall n | n in s.cfg :: Suspended(s, n))
  }

  ghost predicate Suspended(s: Sys, n: Node)
    requires n in s.cfg && s.cur in s.clusters
  {
    s.cfg[n].token == s.cur && n in s.clusters[s.cur].members ==> s.cfg[n].quarantined
  }

  predicate SubMap(a: KeyValues, b: KeyValues) {
    forall k | k in a :: k in b && a[k] == b[k]
  }

  /** New clusters hold nothing but parts of the backup, and are quarantined; no leader from before
      the change of mode can reach their nodes. */
  ghost predicate Nursery(s: Sys) {
    && (forall t | Newborn(s, t) :: SubMap(s.clusters[t].kv, s.acked))
    && (forall n | n in s.cfg && Newborn(s, s.cfg[n].token) :: s.cfg[n].quarantined && Tended(s, n))
  }

  ghost predicate Tended(s: Sys, n: Node) {
    forall e | e in s.cycles && Last(s, n, e) && Decided(s.cycles[e]) :: s.cycles[e].gen == s.gen
  }

  // ---------------------------------------------------------------- one cycle

  /** A cycle that chose its branch before the last change of mode reaches no node of `zone`. */
  ghost predicate Fence(s: Sys, e: Epoch)
    requires e in s.cycles
  {
    var c := s.cycles[e];
    Decided(c) ==> c.gen <= s.gen && (c.gen < s.gen ==> forall n | n in s.zone :: !Last(s, n, e))
  }

  /** A cycle that chose its branch since then chose one that fits the mode. */
  ghost predicate Kind(s: Sys, e: Epoch)
    requires e in s.cycles
  {
    var c := s.cycles[e];
    Decided(c) && c.gen == s.gen ==>
      match c.pc
      case Creating(_, Fresh, _, _, _) => !s.created
      case Creating(_, Restore(backup), _, _, _) => s.created && s.queue == [backup]
      case Restoring(backup) => s.created && s.queue == [backup]
      case Copying(_, _, source, _) => s.created && s.queue == [source]
      case Halting => s.created && s.queue != []
      case _ => s.created && s.queue == []
  }

  /** What a cycle knows about the nodes that still hold its token. */
  ghost predicate Local(env: Env, s: Sys, e: Epoch)
    requires e in s.cycles
  {
    var c := s.cycles[e];
    && (Decided(c) ==> |c.view| >= env.Q())
    && (c.obs.Some? ==> c.obs.value in s.clusters)
    && match c.pc
       case Surveyed => c.idle <= c.view && (c.full ==> Complete(env, s, c.obs)) && Surveys(s, e) && Fit(s, e)
       case Quarantining(_) => Complete(env, s, c.obs)
       case Queueing(_) => Complete(env, s, c.obs)
       case Creating(phase, goal, t, plan, todo) =>
         PlanKnown(env, s, e, t, plan) && (phase == Clearing || todo <= plan) && Progress(s, e)
       case Restoring(_) => c.obs.Some? && !EnoughPeers(|c.view|, env.memberCount) && Fit(s, e)
       case Copying(t, plan, source, left) =>
         if plan == {} then c.obs == Some(t) && !EnoughPeers(|c.view|, env.memberCount)
         else PlanKnown(env, s, e, t, plan) && forall n | n in plan && Last(s, n, e) :: n in s.cfg && s.cfg[n].token == t
       case Expanding(stage, m) =>
         && m in c.view && (Last(s, m, e) ==> m !in s.cfg)
         && c.obs.Some? && s.clusters[c.obs.value].born <= c.gen
         && env.memberCount == 2 * env.Q() - 1
       case _ => true
  }

  /** The peers that a survey found without a cluster have none, and the others have their flag. */
  ghost predicate Surveys(s: Sys, e: Epoch)
    requires e in s.cycles
  {
    var c := s.cycles[e];
    forall n | n in c.view && Last(s, n, e) ::
      if n in c.idle then n !in s.cfg else n in s.cfg && s.cfg[n].quarantined == (n in c.flagged)
  }

  /** The peers that a survey found to be healthy members belong to the observed cluster. */
  ghost predicate Fit(s: Sys, e: Epoch)
    requires e in s.cycles
  {
    forall n | n in s.cycles[e].fit && Last(s, n, e) :: n in s.cfg && Some(s.cfg[n].token) == s.cycles[e].obs
  }

  /** The observed cluster has all the members it should have. */
  ghost predicate Complete(env: Env, s: Sys, obs: Option<Token>) {
    obs.Some? && obs.value in s.clusters && |s.clusters[obs.value].members| >= env.memberCount
  }

  ghost predicate PlanKnown(env: Env, s: Sys, e: Epoch, t: Token, plan: set<Node>)
    requires e in s.cycles
  {
    && t in s.clusters && plan <= s.clusters[t].members && plan <= s.cycles[e].view
    && |plan| >= env.Q() && s.clusters[t].born == s.cycles[e].gen && s.clusters[t].maker == e
  }

  /** createNewCluster: cleared nodes have no cluster, committed ones have the new one. */
  ghost predicate Progress(s: Sys, e: Epoch)
    requires e in s.cycles && s.cycles[e].pc.Creating?
  {
    forall n | n in s.cycles[e].view && Last(s, n, e) :: ProgressAt(s, s.cycles[e].pc, n)
  }

  ghost predicate ProgressAt(s: Sys, pc: Pc, n: Node)
    requires pc.Creating?
  {
    match pc.phase
    case Clearing => n !in pc.todo ==> n !in s.cfg
    case Preparing => n !in s.cfg
    case Forming => if n in pc.plan && n !in pc.todo then n in s.cfg && s.cfg[n].token == pc.token else n !in s.cfg
  }

  /** The cluster that carries the data, or a new one. */
  predicate Alive(s: Sys, t: Token) {
    (s.created && t == s.cur) || Newborn(s, t)
  }

  /** What a cycle knows about the system while nobody has superseded it. */
  ghost predicate Held(env: Env, s: Sys, e: Epoch)
    requires e in s.cycles && (s.cycles[e].obs.Some? ==> s.cycles[e].obs.value in s.clusters)
  {
    Unsuperseded(s, e) && |s.cycles[e].view| >= env.Q() ==>
      var c := s.cycles[e];
      match c.pc
      case Surveyed =>
        && (c.obs.Some? ==> Alive(s, c.obs.value))
        && (c.full ==> c.obs.Some? && Manned(s, c.view, c.obs.value))
      case Quarantining(unflagged) => c.obs == Some(s.cur) && Silenced(s, c.view, unflagged)
      case Queueing(dump) => c.obs == Some(s.cur) && Silenced(s, c.view, {}) && dump == s.acked
      case Restoring(_) => c.obs.Some? && Alive(s, c.obs.value)
      case Copying(t, plan, source, left) =>
        && t in s.clusters && (plan == {} ==> Alive(s, t))
        && forall k | k in source && k !in left :: k in s.clusters[t].kv && s.clusters[t].kv[k] == source[k]
      case _ => true
  }

  /** All members of o are in the view and belong to o. */
  ghost predicate Manned(s: Sys, view: set<Node>, o: Token)
    requires o in s.clusters
  {
    s.clusters[o].members <= view && forall n | n in s.clusters[o].members :: n in s.cfg && s.cfg[n].token == o
  }

  ghost predicate Silenced(s: Sys, view: set<Node>, except: set<Node>) {
    && s.cur in s.clusters && Manned(s, view, s.cur)
    && forall n | n in s.clusters[s.cur].members && n !in except :: s.cfg[n].quarantined
  }

  ghost predicate CycleInv(env: Env, s: Sys, e: Epoch)
    requires e in s.cycles
  {
    Local(env, s, e) && Fence(s, e) && Kind(s, e) && Held(env, s, e)
  }

  /** What is known about the present, without the count of who could still gather around a cluster. */
  ghost predicate Sound(env: Env, s: Sys) {
    && Shape(env, s) && Contents(env, s) && Nursery(s)
    && forall e | e in s.cycles :: CycleInv(env, s, e)
  }

  // ---------------------------------------------------------------- who can gather a quorum

  /** The nodes that must still accept a request of the creation before any of its nodes commits. */
  function Needed(pc: Pc): set<Node>
    requires pc.Creating?
  {
    match pc.phase
    case Clearing => pc.plan
    case Preparing => pc.todo
    case Forming => {}
  }

  /** The nodes that the creation has not committed yet. */
  function Open(pc: Pc): set<Node>
    requires pc.Creating?
  {
    if pc.phase == Forming then pc.todo else pc.plan
  }

  /** The nodes that the maker of t can still bring to it. */
  function Reach(s: Sys, t: Token): set<Node>
    requires t in s.clusters
  {
    var m := s.clusters[t].maker;
    if m in s.cycles && s.cycles[m].pc.Creating? && s.cycles[m].pc.token == t
       && forall n | n in Needed(s.cycles[m].pc) :: Last(s, n, m)
    then set n | n in Open(s.cycles[m].pc) && Last(s, n, m)
    else {}
  }

  /** The nodes that are members of t but have not joined it yet. */
  function Joiners(s: Sys, t: Token): set<Node> {
    set n | n in s.acc && Joins(s, s.acc[n], n, t)
  }

  predicate Joins(s: Sys, g: Epoch, n: Node, t: Token) {
    g in s.cycles && s.cycles[g].pc == Expanding(Joining, n) && s.cycles[g].obs == Some(t)
  }

  function Potential(s: Sys, t: Token): set<Node>
    requires t in s.clusters
  {
    Holders(s, t) + Reach(s, t) + Joiners(s, t)
  }

  /** Cluster t has no quorum, and cannot gather one any more. */
  ghost predicate Weak(env: Env, s: Sys, t: Token)
    requires t in s.clusters
  {
    |Potential(s, t)| < env.Q()
  }

  predicate Restores(pc: Pc) {
    pc.Surveyed? || pc.Restoring? || (pc.Copying? && pc.plan == {})
  }

  /** An unsuperseded cycle that may restore into the cluster it observed. */
  predicate Standing(env: Env, s: Sys, e: Epoch) {
    && Unsuperseded(s, e) && |s.cycles[e].view| >= env.Q()
    && s.cycles[e].obs.Some? && Restores(s.cycles[e].pc)
  }

  /** Every cluster except the current one and new ones is weak, and so are those that an unsuperseded
      leader with a quorum of peers did not observe. */
  ghost predicate Rivals(env: Env, s: Sys) {
    && (s.created ==> forall t | t in s.clusters && t != s.cur && !Newborn(s, t) :: Weak(env, s, t))
    && (forall e | e in s.cycles && Standing(env, s, e) :: Unrivalled(env, s, s.cycles[e].obs))
  }

  ghost predicate Unrivalled(env: Env, s: Sys, obs: Option<Token>) {
    forall t | t in s.clusters && Some(t) != obs :: Weak(env, s, t)
  }

  ghost predicate Inv(env: Env, s: Sys) {
    Sound(env, s) && Rivals(env, s)
  }

  // ---------------------------------------------------------------- quorum arguments

  /** The part of the invariant that needs no discipline: every cluster ever started needs at least
      the quorum of the desired member count. */
  ghost predicate Sized(env: Env, s: Sys) {
    && s.cfg.Keys <= env.nodes
    && (forall t | t in s.clusters :: SizedCluster(env, s.clusters[t]))
    && (forall e | e in s.cycles :: SizedCycle(env, s.cycles[e]))
  }

  ghost predicate SizedCluster(env: Env, c: Cluster) {
    c.members <= env.nodes && QuorumSize(|c.members|) >= env.Q()
  }

  ghost predicate SizedCycle(env: Env, c: Cycle) {
    && c.view <= env.nodes && c.idle <= c.view && (c.pc.Expanding? ==> c.pc.joiner in c.view)
    && (Decided(c) ==> |c.view| >= env.Q())
  }

  lemma RunningIsHeld(env: Env, s: Sys, t: Token)
    requires s.cfg.Keys <= env.nodes && Quorate(s, t) && SizedCluster(env, s.clusters[t])
    ensures Running(s, t) <= Holders(s, t) <= env.nodes
    ensures |Running(s, t)| >= env.Q()
  {
  }

  /** Two clusters never have a quorum at the same time. */
  lemma OneQuorate(env: Env, s: Sys, t: Token, u: Token)
    requires env.Ok() && s.cfg.Keys <= env.nodes && Quorate(s, t) && Quorate(s, u)
    requires SizedCluster(env, s.clusters[t]) && SizedCluster(env, s.clusters[u])
    ensures t == u
  {
    RunningIsHeld(env, s, t);
    RunningIsHeld(env, s, u);
    Overlap(env.nodes, Running(s, t), Running(s, u), env.Q());
  }

  lemma QuorateIsNotWeak(env: Env, s: Sys, t: Token)
    requires s.cfg.Keys <= env.nodes && Quorate(s, t) && SizedCluster(env, s.clusters[t])
    ensures !Weak(env, s, t)
  {
    RunningIsHeld(env, s, t);
    SubsetSize(Running(s, t), Potential(s, t));
  }

  lemma QuorateCluster(env: Env, s: Sys, t: Token)
    requires env.Ok() && Shape(env, s) && Contents(env, s) && Rivals(env, s) && Quorate(s, t)
    ensures (s.created && t == s.cur) || (Pending(s) && Newborn(s, t))
  {
    assert ClusterShape(env, s, t);
    QuorateIsNotWeak(env, s, t);
  }

  lemma NobodyServes(env: Env, s: Sys, n: Node)
    requires env.Ok() && Shape(env, s) && Contents(env, s) && Nursery(s) && Rivals(env, s) && Pending(s)
    ensures !Serving(s, n)
  {
    assert s.created && n in s.cfg ==> Suspended(s, n);
    if Serving(s, n) {
      QuorateCluster(env, s, s.cfg[n].token);
    }
  }

  /** The safety property itself: whatever a client reads is exactly what was acknowledged. */
  ghost predicate Faithful(s: Sys) {
    forall n | Serving(s, n) :: s.clusters[s.cfg[n].token].kv == s.acked
  }

  lemma InvIsFaithful(env: Env, s: Sys)
    requires env.Ok() && Inv(env, s)
    ensures Faithful(s)
  {
    forall n | Serving(s, n)
      ensures s.clusters[s.cfg[n].token].kv == s.acked
    {
      QuorateCluster(env, s, s.cfg[n].token);
      if Pending(s) {
        NobodyServes(env, s, n);
      }
    }
  }

  // ---------------------------------------------------------------- supersession

  /** At most one cycle with a quorum of peers is unsuperseded. */
  lemma HeldUnique(env: Env, s: Sys, e: Epoch, f: Epoch)
    requires env.Ok() && Shape(env, s) && Unsuperseded(s, e) && Unsuperseded(s, f)
    requires |s.cycles[e].view| >= env.Q() && |s.cycles[f].view| >= env.Q()
    ensures e == f
  {
    Overlap(env.nodes, s.cycles[e].view, s.cycles[f].view, env.Q());
    var n :| n in s.cycles[e].view && n in s.cycles[f].view;
    assert Last(s, n, e) && Last(s, n, f);
  }

  /** An unsuperseded cycle chose its branch in the present mode. */
  lemma HeldIsCurrent(env: Env, s: Sys, e: Epoch)
    requires env.Ok() && Shape(env, s) && Contents(env, s)
    requires Unsuperseded(s, e) && Decided(s.cycles[e]) && Fence(s, e) && |s.cycles[e].view| >= env.Q()
    ensures s.cycles[e].gen == s.gen
  {
    if s.cycles[e].gen < s.gen {
      Overlap(env.nodes, s.cycles[e].view, s.zone, env.Q());
    }
  }
}
