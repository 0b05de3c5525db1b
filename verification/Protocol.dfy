/** The whole system as steps: nodes that fence leader requests by the last leadership token they
    accepted, controllers that run their cycles at the same time as each other, a control store, and
    clients. Requests may be lost, nodes and leaders may stop at any step. A controller leads only a view
    in which it is the lowest, and runs one cycle at a time; so each cycle can have an epoch of its own in
    place of the token that it asserts again.

    Auxiliary history: `acked` is what clients were promised, `cur` is the cluster that carries it, `gen`
    counts changes between normal operation and a pending (re)creation, and `zone` is the view of the
    leader that made the last such change. No guard reads them. */
module Protocol {
  import opened Options
  import opened Quorum

  type Node = nat
  type Token = nat
  type Epoch = nat
  type KeyValues = map<string, string>

  /** The machines and the fixed desired member count. */
  datatype Env = Env(nodes: set<Node>, memberCount: nat) {
    function Q(): nat { QuorumSize(memberCount) }

    /** Too few machines for two quorums. */
    predicate Ok() {
      memberCount >= 1 && |nodes| < 2 * Q()
    }
  }

  /** The durable state of a node: the etcd cluster it belongs to, and its quarantine flag. */
  datatype Config = Config(token: Token, quarantined: bool)

  /** An etcd cluster: its membership and its linearizable contents, and the cycle that started it. */
  datatype Cluster = Cluster(members: set<Node>, kv: KeyValues, born: nat, maker: Epoch)

  /** What a cluster is created for: the first cluster, or the target of a restore command. */
  datatype Goal = Fresh | Restore(backup: KeyValues)

  /** createNewCluster stops every configured peer, then prepares, then commits the proposal. */
  datatype Phase = Clearing | Preparing | Forming

  /** addNodeToCluster prepares the joiner, adds it to etcd's membership, then lets it join. What it joins is
      the observed cluster, whose members it is told. */
  datatype Stage = Inviting | Adding | Joining

  /** Where a controller cycle stands. A restore with too few peers to create a cluster goes to the one that
      stands: then `plan` is empty. */
  datatype Pc =
    | Asserting(unasked: set<Node>)
    | Surveyed
    | Lifting
    | Quarantining(unflagged: set<Node>)
    | Queueing(dump: KeyValues)
    | Halting
    | Creating(phase: Phase, goal: Goal, token: Token, plan: set<Node>, todo: set<Node>)
    | Restoring(backup: KeyValues)
    | Copying(target: Token, plan: set<Node>, source: KeyValues, left: set<string>)
    | Expanding(stage: Stage, joiner: Node)

  /** One controller cycle. `obs` is the cluster whose membership it observed, `full` says that all of its
      members were peers, healthy and of the desired number, and `ready` that a quorum of them was
      healthy. `idle` are the peers that had no cluster, `flagged` those in quarantine, and `fit` those that
      were healthy members. `mismatch` says that some peer did not run the desired version. */
  datatype Cycle = Cycle(owner: Node, view: set<Node>, obs: Option<Token>, mismatch: bool, full: bool, ready: bool,
                         idle: set<Node>, flagged: set<Node>, fit: set<Node>, gen: nat, pc: Pc)

  datatype Sys = Sys(
    acc: map<Node, Epoch>,            // the leadership token last accepted
    listening: set<Node>,             // managers that have not restarted since they accepted it
    cfg: map<Node, Config>,           // durable node state
    up: set<Node>,                    // nodes whose etcd process runs
    prepared: map<Node, Token>,
    clusters: map<Token, Cluster>,
    created: bool,                    // the cluster-created marker of the control store
    queue: seq<KeyValues>,            // queued restore commands, by the contents of their backup
    caches: map<Node, seq<KeyValues>>, // each controller's cached queue
    leading: set<Node>,               // controllers in a term of leadership
    cycles: map<Epoch, Cycle>,
    nextEpoch: Epoch,
    acked: KeyValues,
    cur: Token,
    gen: nat,
    zone: set<Node>)

  /** What happens outside of cycles: failures, the node's own loop, expiry of a preparation, a controller
      starting or ending a term of leadership or re-reading its queue, a client write. A term starts with
      reading the queue. */
  datatype LocalAction =
    | Crash(n: Node)
    | ProcessExit(n: Node)
    | RunOnce(n: Node)
    | Expire(n: Node)
    | Elect(n: Node)
    | Resign(n: Node)
    | Refresh(n: Node)
    | ClientWrite(n: Node, key: string, value: Option<string>)

  /** A controller's own progress through its cycle; `Assert` is one accepted leader notification. */
  datatype CycleAction =
    | Start(owner: Node, view: set<Node>)
    | Assert(e: Epoch, n: Node)
    | End(e: Epoch)
    | Survey(e: Epoch, obs: Option<Token>, mismatch: bool)
    | ChooseLift(e: Epoch)
    | ChooseUpgrade(e: Epoch)
    | ChooseCreate(e: Epoch, t: Token, plan: set<Node>)
    | ChooseRestore(e: Epoch)
    | ChooseExpand(e: Epoch, m: Node)
    | BeginPrepare(e: Epoch)
    | BeginCommit(e: Epoch)

  /** A successful request of cycle e at node n, checked there against the accepted token. `Silence` is
      the repair of a half-quarantined cluster, which needs neither a quorum nor an empty queue. `Resend` is
      a reconfiguration for TLS or for an upgrade in place, which sends the surveyed quarantine along. */
  datatype Request =
    | Silence
    | Resend
    | Lift
    | Quarantine
    | Dump
    | Halt
    | Clear
    | Prepare
    | Commit
    | BeginCopy
    | PrepareJoin
    | Join

  /** Writes that no node checks: to the control store and to etcd itself. */
  datatype Write =
    | AddCommand
    | RemoveCommand
    | Mark
    | AddMember
    | Copy(key: string)

  datatype Action =
    | Locally(local: LocalAction)
    | Controller(step: CycleAction)
    | Rpc(epoch: Epoch, node: Node, request: Request)
    | Unfenced(writer: Epoch, write: Write)

  // ---------------------------------------------------------------- observations

  function Holders(s: Sys, t: Token): set<Node> {
    set n | n in s.cfg && s.cfg[n].token == t
  }

  /** Members of t whose etcd process runs. */
  function Running(s: Sys, t: Token): set<Node>
    requires t in s.clusters
  {
    set n | n in s.cfg && s.cfg[n].token == t && n in s.up && n in s.clusters[t].members
  }

  predicate Quorate(s: Sys, t: Token) {
    t in s.clusters && |Running(s, t)| >= QuorumSize(|s.clusters[t].members|)
  }

  /** Node n answers a linearizable etcd request. */
  predicate Healthy(s: Sys, n: Node) {
    && n in s.cfg && n in s.up
    && Quorate(s, s.cfg[n].token)
    && n in s.clusters[s.cfg[n].token].members
  }

  /** Clients reach etcd through n. */
  predicate Serving(s: Sys, n: Node) {
    Healthy(s, n) && !s.cfg[n].quarantined
  }

  predicate Last(s: Sys, n: Node, e: Epoch) {
    n in s.acc && s.acc[n] == e
  }

  /** The header check of a node accepts e's request. */
  predicate Fenced(s: Sys, e: Epoch, n: Node) {
    e in s.cycles && n in s.cycles[e].view && Last(s, n, e) && n in s.listening
  }

  /** Every peer of e's view has e's token as the last one it accepted. */
  predicate Unsuperseded(s: Sys, e: Epoch) {
    e in s.cycles && forall n | n in s.cycles[e].view :: Last(s, n, e)
  }

  predicate Decided(c: Cycle) {
    !c.pc.Asserting? && !c.pc.Surveyed?
  }

  predicate At(s: Sys, e: Epoch) {
    e in s.cycles && s.cycles[e].owner in s.caches
  }

  predicate InPhase(s: Sys, e: Epoch, phase: Phase) {
    e in s.cycles && s.cycles[e].pc.Creating? && s.cycles[e].pc.phase == phase
  }

  predicate InStage(s: Sys, e: Epoch, stage: Stage) {
    e in s.cycles && s.cycles[e].pc.Expanding? && s.cycles[e].pc.stage == stage
  }

  // ---------------------------------------------------------------- steps

  function DoneAt(pc: Pc, n: Node): Pc
    requires pc.Creating?
  {
    Creating(pc.phase, pc.goal, pc.token, pc.plan, pc.todo - {n})
  }

  function NextPhase(pc: Pc, phase: Phase): Pc
    requires pc.Creating?
  {
    Creating(phase, pc.goal, pc.token, pc.plan, pc.plan)
  }

  function WithPc(s: Sys, e: Epoch, pc: Pc): Sys
    requires e in s.cycles
  {
    s.(cycles := s.cycles[e := s.cycles[e].(pc := pc)])
  }

  /** e commits itself to a branch. */
  function Choose(s: Sys, e: Epoch, pc: Pc): Sys
    requires e in s.cycles
  {
    s.(cycles := s.cycles[e := s.cycles[e].(pc := pc, gen := s.gen)])
  }

  /** Reconfigure at n: the flag is set and etcd restarted. */
  function Flagged(s: Sys, n: Node, flag: bool): Sys
    requires n in s.cfg
  {
    s.(cfg := s.cfg[n := s.cfg[n].(quarantined := flag)], up := s.up + {n})
  }

  /** StopEtcd at n. */
  function Stopped(s: Sys, n: Node): Sys {
    s.(cfg := s.cfg - {n}, up := s.up - {n})
  }

  /** A successful commit at n: etcd runs for token t. */
  function Committed(s: Sys, n: Node, t: Token, quarantined: bool): Sys {
    s.(cfg := s.cfg[n := Config(t, quarantined)], up := s.up + {n}, prepared := s.prepared - {n})
  }

  /** All members of `obs` are peers in the view, healthy, and as many as desired. */
  predicate FullyHealthy(env: Env, s: Sys, view: set<Node>, obs: Option<Token>) {
    && obs.Some? && obs.value in s.clusters
    && |s.clusters[obs.value].members| == env.memberCount
    && s.clusters[obs.value].members <= view
    && forall n | n in s.clusters[obs.value].members :: Healthy(s, n)
  }

  /** A quorum of the members of `obs` answers. */
  predicate Ready(env: Env, s: Sys, obs: Option<Token>) {
    && obs.Some? && obs.value in s.clusters
    && |set n | n in s.clusters[obs.value].members && Healthy(s, n)| >= env.Q()
  }

  function GoalOf(s: Sys, e: Epoch): Goal
    requires At(s, e)
  {
    if !s.created || s.caches[s.cycles[e].owner] == [] then Fresh
    else Restore(s.caches[s.cycles[e].owner][0])
  }

  /** A key is put, or deleted. */
  function Stored(kv: KeyValues, k: string, v: Option<string>): KeyValues {
    if v.Some? then kv[k := v.value] else kv - {k}
  }

  /** The contents of the etcd cluster change at one key. */
  function Put(s: Sys, t: Token, k: string, v: Option<string>): Sys
    requires t in s.clusters
  {
    s.(clusters := s.clusters[t := s.clusters[t].(kv := Stored(s.clusters[t].kv, k, v))])
  }

  /** The restore command becomes visible, and e goes on to stop the members. */
  function CommandAdded(s: Sys, e: Epoch): Sys
    requires At(s, e) && s.cycles[e].pc.Queueing?
  {
    var queue := s.queue + [s.cycles[e].pc.dump];
    s.(queue := queue, caches := s.caches[s.cycles[e].owner := queue],
       gen := s.gen + 1, zone := s.cycles[e].view,
       cycles := s.cycles[e := s.cycles[e].(pc := Halting, gen := s.gen + 1)])
  }

  /** e's cluster becomes the one that carries the data, and e's cycle is over. */
  function Settled(s: Sys, e: Epoch, t: Token): Sys
    requires e in s.cycles
  {
    s.(cur := t, gen := s.gen + 1, zone := s.cycles[e].view, cycles := s.cycles - {e})
  }

  /** etcd's membership grows by e's joiner. */
  function MemberAdded(s: Sys, e: Epoch): Sys
    requires InStage(s, e, Adding) && s.cycles[e].obs.Some? && s.cycles[e].obs.value in s.clusters
  {
    var o := s.cycles[e].obs.value;
    var grown := s.clusters[o].(members := s.clusters[o].members + {s.cycles[e].pc.joiner});
    WithPc(s.(clusters := s.clusters[o := grown]), e, Expanding(Joining, s.cycles[e].pc.joiner))
  }

  // ---------------------------------------------------------------- what the code checks

  predicate CanLocally(env: Env, s: Sys, a: LocalAction) {
    match a
    case Crash(_) => true
    case ProcessExit(_) => true
    case RunOnce(n) => n in s.cfg
    case Expire(_) => true
    case Elect(n) => n in env.nodes
    case Resign(_) => true
    case Refresh(n) => n in env.nodes
    case ClientWrite(n, _, _) => Serving(s, n)
  }

  /** e has completed its survey and finds no restore command in its cached queue. */
  predicate Unhindered(s: Sys, e: Epoch) {
    At(s, e) && s.cycles[e].pc.Surveyed? && s.created && s.caches[s.cycles[e].owner] == []
  }

  /** e has a quorum of peers. */
  predicate Backed(env: Env, s: Sys, e: Epoch) {
    e in s.cycles && |s.cycles[e].view| >= env.Q()
  }

  /** Of the configured peers that e surveyed, all or none are in quarantine. */
  predicate Uniform(c: Cycle) {
    c.flagged == {} || c.flagged == c.view - c.idle
  }

  /** e found a quarantine that it could lift. */
  predicate Liftable(c: Cycle) {
    c.flagged != {} && c.ready && !c.mismatch
  }

  predicate Observes(s: Sys, e: Epoch) {
    e in s.cycles && s.cycles[e].obs.Some? && s.cycles[e].obs.value in s.clusters
  }

  predicate CanStep(env: Env, s: Sys, a: CycleAction) {
    match a
    case Start(owner, view) =>
      && owner in s.leading && owner in view && view <= env.nodes
      && (forall n | n in view :: owner <= n)
      && (forall e | e in s.cycles :: s.cycles[e].owner != owner)
    case Assert(e, n) => e in s.cycles && s.cycles[e].pc.Asserting? && n in s.cycles[e].pc.unasked
    case End(e) => e in s.cycles
    case Survey(e, obs, _) =>
      && e in s.cycles && s.cycles[e].pc == Asserting({})
      && (obs.Some? ==> Quorate(s, obs.value))
    case ChooseLift(e) => Unhindered(s, e) && Backed(env, s, e) && Liftable(s.cycles[e])
    case ChooseUpgrade(e) =>
      Unhindered(s, e) && Backed(env, s, e) && s.cycles[e].full && s.cycles[e].mismatch && Uniform(s.cycles[e]) && Observes(s, e)
    case ChooseCreate(e, t, plan) =>
      && At(s, e) && s.cycles[e].pc.Surveyed? && t !in s.clusters
      && (s.created ==> s.caches[s.cycles[e].owner] != [])
      && plan <= s.cycles[e].view
      && EnoughPeers(|s.cycles[e].view|, env.memberCount)
      && |plan| == ProposalSize(|s.cycles[e].view|, env.memberCount)
    case ChooseRestore(e) =>
      && At(s, e) && s.cycles[e].pc.Surveyed? && s.created && s.caches[s.cycles[e].owner] != [] && Backed(env, s, e)
      && !EnoughPeers(|s.cycles[e].view|, env.memberCount) && Observes(s, e)
    case ChooseExpand(e, m) =>
      && Unhindered(s, e) && m in s.cycles[e].idle && Observes(s, e)
      && |s.clusters[s.cycles[e].obs.value].members| < env.memberCount
      && |s.cycles[e].view| >= QuorumSize(|s.clusters[s.cycles[e].obs.value].members|)
      && Uniform(s.cycles[e]) && !Liftable(s.cycles[e])
    case BeginPrepare(e) => InPhase(s, e, Clearing) && s.cycles[e].pc.todo == {}
    case BeginCommit(e) => InPhase(s, e, Preparing) && s.cycles[e].pc.todo == {}
  }

  predicate CanRequest(s: Sys, e: Epoch, n: Node, r: Request) {
    && Fenced(s, e, n)
    && var pc := s.cycles[e].pc;
       match r
       case Silence => pc == Asserting({}) && n in s.cfg
       case Resend => pc == Surveyed && n in s.cfg && n !in s.cycles[e].idle
       case Lift => pc.Lifting? && n in s.cfg && Observes(s, e) && n in s.clusters[s.cycles[e].obs.value].members
       case Quarantine => pc.Quarantining? && n in pc.unflagged && n in s.cfg
       case Dump =>
         && pc == Quarantining({}) && n in s.cfg && n in s.up && s.cfg[n].token in s.clusters
         && Observes(s, e) && n in s.clusters[s.cycles[e].obs.value].members
       case Halt => pc.Halting? && n in s.cfg
       case Clear => InPhase(s, e, Clearing) && n in pc.todo && n in s.cfg
       case Prepare => InPhase(s, e, Preparing) && n in pc.todo && n !in s.up && n !in s.prepared
       case Commit =>
         InPhase(s, e, Forming) && n in pc.todo && n !in s.up && n in s.prepared && s.prepared[n] == pc.token
       case BeginCopy =>
         && (pc.Restoring? || (InPhase(s, e, Forming) && pc.todo == {} && pc.goal.Restore?))
         && Observes(s, e) && n in s.cycles[e].fit && n in s.cfg && n in s.up
       case PrepareJoin =>
         InStage(s, e, Inviting) && Observes(s, e) && n == pc.joiner && n !in s.up && n !in s.prepared
       case Join =>
         && InStage(s, e, Joining) && Observes(s, e) && n == pc.joiner && n !in s.up
         && n in s.prepared && s.prepared[n] == s.cycles[e].obs.value
  }

  predicate CanWrite(s: Sys, e: Epoch, w: Write) {
    && At(s, e)
    && var pc := s.cycles[e].pc;
       match w
       case AddCommand => pc.Queueing?
       case RemoveCommand => pc.Copying? && pc.left == {} && s.queue != [] && s.queue[0] == pc.source
       case Mark => InPhase(s, e, Forming) && pc.todo == {} && pc.goal == Fresh
       case AddMember => InStage(s, e, Adding) && Observes(s, e) && Quorate(s, s.cycles[e].obs.value)
       case Copy(k) => pc.Copying? && k in pc.left && k in pc.source && Quorate(s, pc.target)
  }

  predicate Guard(env: Env, s: Sys, a: Action) {
    match a
    case Locally(local) => CanLocally(env, s, local)
    case Controller(step) => CanStep(env, s, step)
    case Rpc(e, n, r) => CanRequest(s, e, n, r)
    case Unfenced(e, w) => CanWrite(s, e, w)
  }

  // ---------------------------------------------------------------- what the steps do

  function DoLocally(env: Env, s: Sys, a: LocalAction): Sys
    requires CanLocally(env, s, a)
  {
    match a
    case Crash(n) =>
      s.(listening := s.listening - {n}, up := s.up - {n}, prepared := s.prepared - {n}, leading := s.leading - {n})
    case ProcessExit(n) => s.(up := s.up - {n})
    case RunOnce(n) => s.(up := s.up + {n})
    case Expire(n) => s.(prepared := s.prepared - {n})
    case Elect(n) => s.(caches := s.caches[n := s.queue], leading := s.leading + {n})
    case Resign(n) => s.(leading := s.leading - {n})
    case Refresh(n) => s.(caches := s.caches[n := s.queue])
    case ClientWrite(n, k, v) => Put(s, s.cfg[n].token, k, v).(acked := Stored(s.acked, k, v))
  }

  /** What a cycle knows after it has looked at its peers and at etcd. */
  function Surveying(env: Env, s: Sys, c: Cycle, obs: Option<Token>, mismatch: bool): Cycle {
    c.(pc := Surveyed, obs := obs, mismatch := mismatch, full := FullyHealthy(env, s, c.view, obs),
       ready := Ready(env, s, obs), idle := c.view - s.cfg.Keys,
       flagged := (set n | n in c.view && n in s.cfg && s.cfg[n].quarantined),
       fit := set n | n in c.view && obs.Some? && obs.value in s.clusters && n in s.clusters[obs.value].members && Healthy(s, n))
  }

  function DoStep(env: Env, s: Sys, a: CycleAction): Sys
    requires CanStep(env, s, a)
  {
    match a
    case Start(owner, view) =>
      s.(cycles := s.cycles[s.nextEpoch := Cycle(owner, view, None, false, false, false, {}, {}, {}, 0, Asserting(view))],
         nextEpoch := s.nextEpoch + 1)
    case Assert(e, n) =>
      WithPc(s, e, Asserting(s.cycles[e].pc.unasked - {n})).(acc := s.acc[n := e], listening := s.listening + {n})
    case End(e) => s.(cycles := s.cycles - {e})
    case Survey(e, obs, mismatch) =>
      s.(cycles := s.cycles[e := Surveying(env, s, s.cycles[e], obs, mismatch)])
    case ChooseLift(e) => Choose(s, e, Lifting)
    case ChooseUpgrade(e) => Choose(s, e, Quarantining(s.clusters[s.cycles[e].obs.value].members))
    case ChooseCreate(e, t, plan) =>
      Choose(s, e, Creating(Clearing, GoalOf(s, e), t, plan, s.cycles[e].view - s.cycles[e].idle))
        .(clusters := s.clusters[t := Cluster(plan, map[], s.gen, e)])
    case ChooseRestore(e) => Choose(s, e, Restoring(s.caches[s.cycles[e].owner][0]))
    case ChooseExpand(e, m) => Choose(s, e, Expanding(Inviting, m))
    case BeginPrepare(e) => WithPc(s, e, NextPhase(s.cycles[e].pc, Preparing))
    case BeginCommit(e) => WithPc(s, e, NextPhase(s.cycles[e].pc, Forming))
  }

  function DoRequest(s: Sys, e: Epoch, n: Node, r: Request): Sys
    requires CanRequest(s, e, n, r)
  {
    var pc := s.cycles[e].pc;
    match r
    case Silence => Flagged(s, n, true)
    case Resend => Flagged(s, n, n in s.cycles[e].flagged)
    case Lift => Flagged(s, n, false)
    case Quarantine => WithPc(Flagged(s, n, true), e, Quarantining(pc.unflagged - {n}))
    case Dump => WithPc(s, e, Queueing(s.clusters[s.cfg[n].token].kv))
    case Halt => Stopped(s, n)
    case Clear => WithPc(Stopped(s, n), e, DoneAt(pc, n))
    case Prepare => WithPc(s, e, DoneAt(pc, n)).(prepared := s.prepared[n := pc.token])
    case Commit => WithPc(Committed(s, n, pc.token, true), e, DoneAt(pc, n))
    case BeginCopy =>
      if pc.Restoring? then WithPc(s, e, Copying(s.cfg[n].token, {}, pc.backup, pc.backup.Keys))
      else WithPc(s, e, Copying(s.cfg[n].token, pc.plan, pc.goal.backup, pc.goal.backup.Keys))
    case PrepareJoin =>
      WithPc(s, e, Expanding(Adding, n)).(prepared := s.prepared[n := s.cycles[e].obs.value])
    case Join => Committed(s, n, s.cycles[e].obs.value, false).(cycles := s.cycles - {e})
  }

  function DoWrite(s: Sys, e: Epoch, w: Write): Sys
    requires CanWrite(s, e, w)
  {
    var pc := s.cycles[e].pc;
    match w
    case AddCommand => CommandAdded(s, e)
    case RemoveCommand =>
      Settled(s, e, pc.target)
        .(queue := s.queue[1..], caches := s.caches[s.cycles[e].owner := s.queue[1..]])
    case Mark => Settled(s, e, pc.token).(created := true)
    case AddMember => MemberAdded(s, e)
    case Copy(k) =>
      WithPc(Put(s, pc.target, k, Some(pc.source[k])), e, Copying(pc.target, pc.plan, pc.source, pc.left - {k}))
  }

  function Apply(env: Env, s: Sys, a: Action): Sys
    requires Guard(env, s, a)
  {
    match a
    case Locally(local) => DoLocally(env, s, local)
    case Controller(step) => DoStep(env, s, step)
    case Rpc(e, n, r) => DoRequest(s, e, n, r)
    case Unfenced(e, w) => DoWrite(s, e, w)
  }

  // ---------------------------------------------------------------- discipline

  predicate UpToDate(s: Sys, e: Epoch) {
    At(s, e) && s.caches[s.cycles[e].owner] == s.queue
  }

  /** What the code does not check: that the cached queue is still the store's queue when a branch is
      chosen on it, and that the leader has not been superseded when it writes to the control store or, from
      a desired size of four on, copies a backup into etcd. */
  predicate Disciplined(env: Env, s: Sys, a: Action) {
    match a
    case Locally(_) => true
    case Controller(step) => DisciplinedStep(s, step)
    case Rpc(_, _, _) => true
    case Unfenced(e, w) => w.AddMember? || (w.Copy? && env.memberCount <= 3) || Unsuperseded(s, e)
  }

  predicate DisciplinedStep(s: Sys, a: CycleAction) {
    match a
    case ChooseLift(e) => UpToDate(s, e)
    case ChooseUpgrade(e) => UpToDate(s, e)
    case ChooseCreate(e, _, _) => s.created ==> UpToDate(s, e)
    case ChooseRestore(e) => UpToDate(s, e)
    case ChooseExpand(e, _) => UpToDate(s, e)
    case _ => true
  }

  function Initial(env: Env): Sys {
    Sys(map[], {}, map[], {}, map[], map[], false, [], map n | n in env.nodes :: [], {}, map[], 0,
        map[], 0, 0, {})
  }

  // ---------------------------------------------------------------- runs

  /** s is reached by some sequence of steps the code allows. */
  ghost predicate Run(env: Env, states: seq<Sys>, actions: seq<Action>) {
    && |states| == |actions| + 1 && states[0] == Initial(env)
    && forall i | 0 <= i < |actions| ::
         Guard(env, states[i], actions[i]) && states[i + 1] == Apply(env, states[i], actions[i])
  }

  ghost predicate DisciplinedRun(env: Env, states: seq<Sys>, actions: seq<Action>) {
    && Run(env, states, actions)
    && forall i | 0 <= i < |actions| :: Disciplined(env, states[i], actions[i])
  }
}
