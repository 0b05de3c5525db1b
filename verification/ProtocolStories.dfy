/** The common beginning of the runs that lose a write: a cluster is founded, opened to clients, given a
    value, and dumped. */
module ProtocolStories {
  import opened Options
  import opened Sets
  import opened Quorum
  import opened Protocol
  import opened ProtocolRuns

  const DATA: KeyValues := map["k" := "v"]
  const NEWER: KeyValues := map["k" := "w"]

  function Empty(env: Env): map<Node, seq<KeyValues>> {
    map n | n in env.nodes :: []
  }

  /** A state without its clusters and the progress of leaders; every controller is in office. */
  function Still(env: Env, cfg: map<Node, Config>, up: set<Node>, created: bool, queue: seq<KeyValues>,
                 caches: map<Node, seq<KeyValues>>, acked: KeyValues): Sys
  {
    Sys(map[], {}, cfg, up, map[], map[], created, queue, caches, env.nodes, map[], 0, acked, 0, 0, {})
  }

  function Rest(s: Sys): Sys {
    Durable(s).(clusters := map[])
  }

  predicate Has(s: Sys, t: Token, plan: set<Node>, kv: KeyValues) {
    t in s.clusters && s.clusters[t].members == plan && s.clusters[t].kv == kv
  }

  /** A leader with enough peers to found a cluster on the plan. */
  predicate Founder(env: Env, x: Node, view: set<Node>, plan: set<Node>) {
    && x in view && view <= env.nodes && (forall n | n in view :: x <= n)
    && plan <= view && plan != {} && |plan| >= env.Q() && |view| >= env.Q()
    && EnoughPeers(|view|, env.memberCount) && |plan| == ProposalSize(|view|, env.memberCount)
  }

  // ---------------------------------------------------------------- elections

  lemma {:induction false} ElectAll(env: Env, slip: Option<Action>, s: Sys, todo: set<Node>)
    requires Reached(env, slip, s) && todo <= env.nodes && s.queue == [] && s.caches == Empty(env)
    ensures Reached(env, slip, s.(leading := s.leading + todo))
    decreases todo
  {
    hide Reached;
    if todo == {} {
      assert s.leading + todo == s.leading;
    } else {
      var n := Any(todo);
      Happen(env, slip, s, Elect(n));
      var s1 := DoLocally(env, s, Elect(n));
      assert s1.caches == Empty(env);
      ElectAll(env, slip, s1, todo - {n});
      assert s.leading + {n} + (todo - {n}) == s.leading + todo;
    }
  }

  /** Every controller was elected once, while the queue was empty. */
  lemma Elected(env: Env, slip: Option<Action>) returns (s: Sys)
    ensures Reached(env, slip, s) && s == Initial(env).(leading := env.nodes)
  {
    hide Reached;
    ProtocolRuns.Begin(env, slip);
    ElectAll(env, slip, Initial(env), env.nodes);
    assert {} + env.nodes == env.nodes;
    s := Initial(env).(leading := env.nodes);
  }

  // ---------------------------------------------------------------- what a survey finds

  lemma SurveyFacts(env: Env, s: Sys, x: Node, view: set<Node>, t: Token, plan: set<Node>, mismatch: bool)
    requires Stands(s, t, plan) && |plan| >= env.Q()
    ensures Quorate(s, t)
    ensures var c := Surveying(env, s, Undecided(x, view, Asserting({})), Some(t), mismatch);
            && c.ready && c.obs == Some(t) && c.mismatch == mismatch && c.pc == Surveyed && c.owner == x && c.view == view
            && (c.full <==> |plan| == env.memberCount && plan <= view)
            && c.fit == view * plan && c.idle == view - s.cfg.Keys && c.flagged == set n | n in view && n in s.cfg && s.cfg[n].quarantined
  {
    StandsIsQuorate(s, t, plan);
    StandsIsReady(env, s, t, plan);
    hide Ready, Quorate, Healthy;
  }

  lemma SurveyParts(env: Env, s: Sys, c: Cycle, obs: Option<Token>, mismatch: bool)
    ensures var d := Surveying(env, s, c, obs, mismatch);
            d.view == c.view && d.owner == c.owner && d.pc == Surveyed && d.obs == obs && d.idle == c.view - s.cfg.Keys
  {
  }

  /** All machines of the plan, and no others, run the cluster. */
  lemma AllStand(s: Sys, t: Token, plan: set<Node>, kv: KeyValues, flag: bool)
    requires s.cfg == AllTo(plan, Config(t, flag)) && s.up == plan && Has(s, t, plan, kv) && plan != {}
    ensures Stands(s, t, plan)
  {
  }

  // ---------------------------------------------------------------- founding

  /** The first cluster is formed but not marked. */
  lemma Formed(env: Env, slip: Option<Action>, x: Node, v: set<Node>, p: set<Node>) returns (s: Sys)
    requires Founder(env, x, v, p)
    ensures Reached(env, slip, s) && s.nextEpoch == 1 && 0 in s.cycles && s.cycles == map[0 := s.cycles[0]]
    ensures s.cycles[0].owner == x && s.cycles[0].view == v && s.cycles[0].pc == Creating(Forming, Fresh, 1, p, {}) && Followed(s, 0)
    ensures Rest(s) == Still(env, AllTo(p, Config(1, true)), p, false, [], Empty(env), map[])
    ensures s.clusters.Keys == {1} && Has(s, 1, p, map[])
  {
    hide Reached, AllTo;
    var s0 := Elected(env, slip);
    var s1 := Gate(env, slip, s0, x, v, None, false);
    MayCreate(env, s0, s1, x, v, p);
    s := Create(env, slip, s1, 0, 1, p);
    OnlyAllTo(s1.cfg - v, p, Config(1, true));
    assert {} - v + p == p;
  }

  /** A cluster of the plan is formed and marked. */
  lemma Founded(env: Env, slip: Option<Action>, x: Node, view: set<Node>, plan: set<Node>) returns (s: Sys)
    requires Founder(env, x, view, plan)
    ensures Reached(env, slip, s) && s.cycles == map[] && s.nextEpoch == 1
    ensures Rest(s) == Still(env, AllTo(plan, Config(1, true)), plan, true, [], Empty(env), map[])
    ensures s.clusters.Keys == {1} && Has(s, 1, plan, map[])
  {
    hide Reached, AllTo;
    var s1 := Formed(env, slip, x, view, plan);
    assert x in Empty(env);
    Note(env, slip, s1, 0, Mark);
    s := DoWrite(s1, 0, Mark);
  }

  lemma MayCreate(env: Env, s0: Sys, s1: Sys, x: Node, view: set<Node>, plan: set<Node>)
    requires Founder(env, x, view, plan) && s0 == Initial(env).(leading := env.nodes)
    requires Durable(s1) == Durable(s0) && s1.gen == 0
    requires s1.cycles == s0.cycles[0 := Surveying(env, s0, Undecided(x, view, Asserting({})), None, false)]
    ensures CanStep(env, s1, ChooseCreate(0, 1, plan)) && GoalOf(s1, 0) == Fresh
    ensures s1.cycles[0].view == view && s1.cycles[0].idle == view - s1.cfg.Keys && s1.prepared == map[] && s1.up == {} && s1.cfg == map[]
    ensures s1.clusters == map[] && !s1.created
  {
    assert Durable(s1).caches == s1.caches && Durable(s1).clusters == s1.clusters && Durable(s1).created == s1.created;
    assert Durable(s1).cfg == s1.cfg && Durable(s1).up == s1.up && Durable(s1).prepared == s1.prepared;
  }

  // ---------------------------------------------------------------- whole cycles

  /** x can start a cycle over the view. */
  predicate CanLead(env: Env, s: Sys, x: Node, view: set<Node>) {
    CanStep(env, s, Start(x, view)) && s.nextEpoch !in s.cycles && |view| >= env.Q() && x in s.caches
  }

  /** The cycle that s' has and s has not. */
  predicate NewCycle(s: Sys, s': Sys, x: Node, view: set<Node>) {
    var e := s.nextEpoch;
    && e in s'.cycles && s'.cycles == s.cycles[e := s'.cycles[e]] && s'.nextEpoch == e + 1
    && s'.cycles[e].owner == x && s'.cycles[e].view == view
    && s'.acc == s.acc + AllTo(view, e) && s'.listening == s.listening + view && s'.gen == s.gen
    && Followed(s', e)
  }

  lemma EndCycle(env: Env, slip: Option<Action>, s: Sys, e: Epoch) returns (s': Sys)
    requires Reached(env, slip, s) && e in s.cycles
    ensures Reached(env, slip, s') && Durable(s') == Durable(s) && s'.cycles == s.cycles - {e}
    ensures s'.acc == s.acc && s'.listening == s.listening && s'.nextEpoch == s.nextEpoch && s'.gen == s.gen
  {
    Go(env, slip, s, End(e));
    s' := DoStep(env, s, End(e));
  }

  /** A controller that finds the cluster in quarantine lifts it at some members. */
  lemma LiftCycle(env: Env, slip: Option<Action>, s: Sys, x: Node, view: set<Node>, t: Token, plan: set<Node>, todo: set<Node>, q: Node)
    returns (s': Sys)
    requires Reached(env, slip, s) && CanLead(env, s, x, view) && Stands(s, t, plan) && |plan| >= env.Q()
    requires s.created && s.caches[x] == [] && (s.queue == [] || slip == Some(Controller(ChooseLift(s.nextEpoch))))
    requires q in view && q in s.cfg && s.cfg[q].quarantined && todo <= plan && todo <= view
    ensures Reached(env, slip, s') && NewCycle(s, s', x, view)
    ensures Durable(s') == Durable(s).(cfg := Reflag(s.cfg, todo, false), up := s.up + todo)
  {
    hide Reached, AllTo, Reflag;
    SurveyFacts(env, s, x, view, t, plan, false);
    var s1 := Gate(env, slip, s, x, view, Some(t), false);
    hide Surveying, Stands;
    var e := s.nextEpoch;
    assert q in s1.cycles[e].flagged;
    assert todo <= s1.cfg.Keys by { StandingNodes(s, t, plan); }
    DurableFields(s, s1);
    s' := Open(env, slip, s1, e, todo);
    StillFollowed(s1, s', e);
  }

  lemma StandingNodes(s: Sys, t: Token, plan: set<Node>)
    requires Stands(s, t, plan)
    ensures plan <= s.cfg.Keys && t in s.clusters && s.clusters[t].members == plan
  {
  }

  lemma DurableFields(s: Sys, s': Sys)
    requires Durable(s') == Durable(s)
    ensures s'.cfg == s.cfg && s'.up == s.up && s'.prepared == s.prepared && s'.clusters == s.clusters
    ensures s'.created == s.created && s'.queue == s.queue && s'.caches == s.caches && s'.leading == s.leading
    ensures s'.acked == s.acked
  {
    var d := Durable(s);
    assert d.cfg == s.cfg && d.up == s.up && d.prepared == s.prepared && d.clusters == s.clusters;
    assert d.created == s.created && d.queue == s.queue && d.caches == s.caches && d.leading == s.leading && d.acked == s.acked;
    var d' := Durable(s');
    assert d'.cfg == s'.cfg && d'.up == s'.up && d'.prepared == s'.prepared && d'.clusters == s'.clusters;
    assert d'.created == s'.created && d'.queue == s'.queue && d'.caches == s'.caches && d'.leading == s'.leading && d'.acked == s'.acked;
  }

  /** A controller with a restore command in its cached queue recreates the cluster on the plan. */
  lemma RecreateCycle(env: Env, slip: Option<Action>, s: Sys, x: Node, view: set<Node>, plan: set<Node>, t: Token, obs: Option<Token>)
    returns (s': Sys)
    requires obs.Some? ==> Quorate(s, obs.value)
    requires Reached(env, slip, s) && CanLead(env, s, x, view) && Founder(env, x, view, plan) && t !in s.clusters
    requires s.created && s.caches[x] != []
    requires s.queue == s.caches[x] || slip == Some(Controller(ChooseCreate(s.nextEpoch, t, plan)))
    requires s.prepared == map[] && s.up <= s.cfg.Keys
    ensures Reached(env, slip, s') && NewCycle(s, s', x, view)
    ensures Durable(s') == Durable(s).(cfg := Recreated(s.cfg, view, plan, t), up := s.up - view + plan,
                                       clusters := s.clusters[t := Cluster(plan, map[], s.gen, s.nextEpoch)])
    ensures s'.cycles[s.nextEpoch].pc == Creating(Forming, Restore(s.caches[x][0]), t, plan, {}) && s'.cycles[s.nextEpoch].obs == obs
    ensures s'.cycles[s.nextEpoch].fit == Surveying(env, s, Undecided(x, view, Asserting({})), obs, false).fit
  {
    hide Reached, AllTo, Quorate, Recreated;
    SurveyParts(env, s, Undecided(x, view, Asserting({})), obs, false);
    var s1 := Gate(env, slip, s, x, view, obs, false);
    hide Surveying;
    var e := s.nextEpoch;
    DurableFields(s, s1);
    s' := Create(env, slip, s1, e, t, plan);
  }

  lemma FormedStands(s: Sys, cfg: map<Node, Config>, view: set<Node>, plan: set<Node>, t: Token)
    requires s.cfg == Recreated(cfg, view, plan, t) && plan <= s.up && plan != {}
    requires t in s.clusters && s.clusters[t].members == plan
    ensures Stands(s, t, plan)
  {
  }

  /** What a restoring controller needs besides: the cluster u stands on `base`, and n was a healthy member. */
  predicate Donor(s: Sys, view: set<Node>, plan: set<Node>, u: Token, base: set<Node>, n: Node) {
    Stands(s, u, base) && n in base && n in plan && plan <= view
  }

  lemma DonorIsFit(env: Env, s: Sys, x: Node, view: set<Node>, plan: set<Node>, u: Token, base: set<Node>, n: Node)
    requires Donor(s, view, plan, u, base, n)
    ensures Quorate(s, u) && n in Surveying(env, s, Undecided(x, view, Asserting({})), Some(u), false).fit
    ensures u in s.clusters
  {
    StandsIsQuorate(s, u, base);
  }

  /** A controller that finds a cluster recreates it and has asked for the restore. */
  lemma OrderedCycle(env: Env, slip: Option<Action>, s: Sys, x: Node, view: set<Node>, plan: set<Node>, t: Token,
                     u: Token, base: set<Node>, n: Node) returns (s': Sys)
    requires Reached(env, slip, s) && CanLead(env, s, x, view) && Founder(env, x, view, plan) && t !in s.clusters
    requires s.created && s.caches[x] != [] && s.queue == s.caches[x] && s.prepared == map[] && s.up <= s.cfg.Keys
    requires Donor(s, view, plan, u, base, n)
    ensures Reached(env, slip, s') && NewCycle(s, s', x, view) && Stands(s', t, plan)
    ensures s'.cycles[s.nextEpoch].pc == Creating(Forming, Restore(s.queue[0]), t, plan, {})
    ensures n in s'.cycles[s.nextEpoch].fit && Observes(s', s.nextEpoch)
    ensures Durable(s') == Durable(s).(cfg := Recreated(s.cfg, view, plan, t), up := s.up - view + plan,
                                       clusters := s.clusters[t := Cluster(plan, map[], s.gen, s.nextEpoch)])
  {
    hide Reached, AllTo, Recreated, Founder, CanLead, Surveying, Quorate;
    DonorIsFit(env, s, x, view, plan, u, base, n);
    hide Stands;
    s' := RecreateCycle(env, slip, s, x, view, plan, t, Some(u));
    FormedStands(s', s.cfg, view, plan, t);
  }

  /** It also copies the backup. */
  lemma RestoreCycle(env: Env, slip: Option<Action>, s: Sys, x: Node, view: set<Node>, plan: set<Node>, t: Token,
                     u: Token, base: set<Node>, n: Node) returns (s': Sys)
    requires Reached(env, slip, s) && CanLead(env, s, x, view) && Founder(env, x, view, plan) && t !in s.clusters
    requires s.created && s.caches[x] != [] && s.queue == s.caches[x] && s.prepared == map[] && s.up <= s.cfg.Keys
    requires Donor(s, view, plan, u, base, n)
    ensures Reached(env, slip, s') && NewCycle(s, s', x, view)
    ensures Durable(s') == Durable(s).(cfg := Recreated(s.cfg, view, plan, t), up := s.up - view + plan,
                                       clusters := s.clusters[t := Cluster(plan, s.queue[0], s.gen, s.nextEpoch)])
    ensures s'.cycles[s.nextEpoch].pc == Copying(t, plan, s.queue[0], {})
  {
    assert x in s.caches && plan <= view && n in plan;
    hide Reached, AllTo, Recreated, Founder, CanLead, Donor;
    var s1 := OrderedCycle(env, slip, s, x, view, plan, t, u, base, n);
    var e := s.nextEpoch;
    assert At(s1, e);
    hide Stands, At;
    s' := Fill(env, slip, s1, e, n);
    NewCycleGoesOn(s, s1, s', x, view);
    FilledNew(s.clusters, t, Cluster(plan, map[], s.gen, e), s.queue[0]);
  }

  lemma NewCycleGoesOn(s: Sys, s1: Sys, s': Sys, x: Node, view: set<Node>)
    requires NewCycle(s, s1, x, view) && SameLeaders(s1, s', s.nextEpoch)
    requires s.nextEpoch in s'.cycles && s'.cycles[s.nextEpoch].owner == x && s'.cycles[s.nextEpoch].view == view
    ensures NewCycle(s, s', x, view)
  {
  }

  lemma FilledNew(clusters: map<Token, Cluster>, t: Token, c: Cluster, kv: KeyValues)
    ensures Filled(clusters[t := c], t, kv) == clusters[t := c.(kv := kv)]
  {
  }

  /** It removes the command, and its cycle is over. */
  lemma RemoveFirst(env: Env, slip: Option<Action>, s: Sys, e: Epoch) returns (s': Sys)
    requires Reached(env, slip, s) && At(s, e) && s.cycles[e].pc.Copying? && s.cycles[e].pc.left == {}
    requires s.queue != [] && s.queue[0] == s.cycles[e].pc.source
    requires Unsuperseded(s, e) || slip == Some(Unfenced(e, RemoveCommand))
    ensures Reached(env, slip, s') && s'.cycles == s.cycles - {e} && s'.nextEpoch == s.nextEpoch
    ensures Durable(s') == Durable(s).(queue := s.queue[1..], caches := s.caches[s.cycles[e].owner := s.queue[1..]])
    ensures s'.acc == s.acc && s'.listening == s.listening
  {
    hide Reached;
    Note(env, slip, s, e, RemoveCommand);
    s' := DoWrite(s, e, RemoveCommand);
  }

  lemma FounderPlan(env: Env, x: Node, view: set<Node>, plan: set<Node>)
    requires Founder(env, x, view, plan)
    ensures plan <= view && plan != {} && x in view && view <= env.nodes
  {
  }

  // ---------------------------------------------------------------- opening and dumping

  lemma ReflagAll(plan: set<Node>, t: Token, flag: bool, flag': bool)
    ensures Reflag(AllTo(plan, Config(t, flag)), plan, flag') == AllTo(plan, Config(t, flag'))
  {
  }

  lemma LeadsAgain(env: Env, s: Sys, x: Node, view: set<Node>, plan: set<Node>)
    requires Founder(env, x, view, plan) && s.cycles == map[] && s.leading == env.nodes && s.caches.Keys == env.nodes
    ensures CanLead(env, s, x, view)
  {
  }

  lemma RestFields(env: Env, s: Sys, cfg: map<Node, Config>, up: set<Node>, created: bool, queue: seq<KeyValues>,
                   caches: map<Node, seq<KeyValues>>, acked: KeyValues)
    requires Rest(s) == Still(env, cfg, up, created, queue, caches, acked)
    ensures s.cfg == cfg && s.up == up && s.prepared == map[] && s.created == created && s.queue == queue && s.caches == caches
    ensures s.leading == env.nodes && s.acked == acked
  {
    var r := Rest(s);
    assert r.cfg == s.cfg && r.up == s.up && r.prepared == s.prepared && r.created == s.created && r.queue == s.queue;
    assert r.caches == s.caches && r.leading == s.leading && r.acked == s.acked;
  }

  /** The cluster is opened to clients, and one writes. */
  lemma Opened(env: Env, slip: Option<Action>, x: Node, view: set<Node>, plan: set<Node>) returns (s: Sys)
    requires Founder(env, x, view, plan)
    ensures Reached(env, slip, s) && s.cycles == map[] && s.nextEpoch == 2
    ensures Rest(s) == Still(env, AllTo(plan, Config(1, false)), plan, true, [], Empty(env), DATA)
    ensures s.clusters.Keys == {1} && Has(s, 1, plan, DATA)
  {
    hide Reached, Founder, CanLead, NewCycle;
    var s0 := Founded(env, slip, x, view, plan);
    RestFields(env, s0, AllTo(plan, Config(1, true)), plan, true, [], Empty(env), map[]);
    FounderPlan(env, x, view, plan);
    FounderSize(env, x, view, plan);
    LeadsAgain(env, s0, x, view, plan);
    AllStand(s0, 1, plan, map[], true);
    var q := Any(plan);
    var s1 := LiftCycle(env, slip, s0, x, view, 1, plan, plan, q);
    ReflagAll(plan, 1, true, false);
    NewCycleEnds(s0, s1, x, view);
    var s2 := EndCycle(env, slip, s1, 1);
    hide AllTo, Reflag;
    DurableFields(s1, s2);
    s := Written(env, slip, s2, plan, q, "v", map[]);
  }

  lemma FounderSize(env: Env, x: Node, view: set<Node>, plan: set<Node>)
    requires Founder(env, x, view, plan)
    ensures |plan| >= env.Q() && |view| >= env.Q()
  {
  }

  lemma NewCycleEnds(s: Sys, s': Sys, x: Node, view: set<Node>)
    requires NewCycle(s, s', x, view)
    ensures s.nextEpoch in s'.cycles && s'.nextEpoch == s.nextEpoch + 1
    ensures s.nextEpoch !in s.cycles ==> s'.cycles - {s.nextEpoch} == s.cycles
  {
  }

  /** A client writes through an open member. */
  lemma Written(env: Env, slip: Option<Action>, s: Sys, plan: set<Node>, q: Node, v: string, before: KeyValues) returns (s': Sys)
    requires Reached(env, slip, s) && s.cfg == AllTo(plan, Config(1, false)) && s.up == plan && q in plan && Has(s, 1, plan, before)
    requires before == s.acked
    ensures Reached(env, slip, s') && s'.cycles == s.cycles && s'.nextEpoch == s.nextEpoch
    ensures Rest(s') == Rest(s).(acked := before["k" := v])
    ensures s'.clusters.Keys == s.clusters.Keys && Has(s', 1, plan, before["k" := v])
  {
    hide Reached;
    AllStand(s, 1, plan, before, false);
    StandsIsQuorate(s, 1, plan);
    hide Quorate, Healthy;
    assert s.cfg[q] == Config(1, false);
    Happen(env, slip, s, ClientWrite(q, "k", Some(v)));
    s' := DoLocally(env, s, ClientWrite(q, "k", Some(v)));
  }

  /** An upgrade has quarantined the members and dumped the cluster. */
  lemma Dumped(env: Env, slip: Option<Action>, x: Node, view: set<Node>, plan: set<Node>) returns (s: Sys)
    requires Founder(env, x, view, plan) && |plan| == env.memberCount
    ensures Reached(env, slip, s) && s.nextEpoch == 3
    ensures 2 in s.cycles && s.cycles == map[2 := s.cycles[2]] && Followed(s, 2)
    ensures s.cycles[2].pc == Queueing(DATA) && s.cycles[2].owner == x && s.cycles[2].view == view
    ensures Rest(s) == Still(env, AllTo(plan, Config(1, true)), plan, true, [], Empty(env), DATA)
    ensures s.clusters.Keys == {1} && Has(s, 1, plan, DATA)
  {
    hide Reached, Founder;
    var s0 := Opened(env, slip, x, view, plan);
    RestFields(env, s0, AllTo(plan, Config(1, false)), plan, true, [], Empty(env), DATA);
    FounderPlan(env, x, view, plan);
    FounderSize(env, x, view, plan);
    LeadsAgain(env, s0, x, view, plan);
    AllStand(s0, 1, plan, DATA, false);
    SurveyFacts(env, s0, x, view, 1, plan, true);
    var s1 := Gate(env, slip, s0, x, view, Some(1), true);
    DurableFields(s0, s1);
    NobodyFlagged(s0, view, plan);
    hide Surveying, SameLeaders;
    AllStand(s1, 1, plan, DATA, false);
    s := ProtocolRuns.Dump(env, slip, s1, 2, 1, plan);
    ReflagAll(plan, 1, false, true);
    DumpedStory(s1, s, x, view, plan);
  }

  lemma DumpedStory(s1: Sys, s: Sys, x: Node, view: set<Node>, plan: set<Node>)
    requires SameLeaders(s1, s, 2) && Followed(s1, 2) && s1.nextEpoch == 3 && s1.cycles == map[2 := s1.cycles[2]]
    requires s1.up == plan && s1.clusters.Keys == {1} && Has(s1, 1, plan, DATA)
    requires s1.cycles[2].owner == x && s1.cycles[2].view == view
    requires Durable(s) == Durable(s1).(cfg := AllTo(plan, Config(1, true)), up := s1.up + plan)
    requires s.cycles == s1.cycles[2 := s1.cycles[2].(pc := Queueing(DATA), gen := s1.gen)]
    ensures s.nextEpoch == 3 && s.cycles == map[2 := s.cycles[2]] && Followed(s, 2)
    ensures s.cycles[2].pc == Queueing(DATA) && s.cycles[2].owner == x && s.cycles[2].view == view
    ensures Rest(s) == Rest(s1).(cfg := AllTo(plan, Config(1, true))) && s.clusters.Keys == {1} && Has(s, 1, plan, DATA)
  {
    hide AllTo;
    assert s1.up + plan == plan;
    assert Durable(s).clusters == s.clusters;
  }

  lemma NobodyFlagged(s: Sys, view: set<Node>, plan: set<Node>)
    requires s.cfg == AllTo(plan, Config(1, false))
    ensures (set n | n in view && n in s.cfg && s.cfg[n].quarantined) == {}
  {
  }

  /** The restore is queued, and the cycle is over. */
  lemma Queued(env: Env, slip: Option<Action>, x: Node, view: set<Node>, plan: set<Node>) returns (s: Sys)
    requires Founder(env, x, view, plan) && |plan| == env.memberCount
    ensures Reached(env, slip, s) && s.cycles == map[] && s.nextEpoch == 3
    ensures Rest(s) == Still(env, AllTo(plan, Config(1, true)), plan, true, [DATA], Empty(env)[x := [DATA]], DATA)
    ensures s.clusters.Keys == {1} && Has(s, 1, plan, DATA)
  {
    hide Reached, AllTo;
    var s1 := Dumped(env, slip, x, view, plan);
    RestFields(env, s1, AllTo(plan, Config(1, true)), plan, true, [], Empty(env), DATA);
    assert Unsuperseded(s1, 2);
    Note(env, slip, s1, 2, AddCommand);
    var s2 := DoWrite(s1, 2, AddCommand);
    s := EndCycle(env, slip, s2, 2);
    assert [] + [DATA] == [DATA];
    DurableFields(s2, s);
  }

  // ---------------------------------------------------------------- cycles between which nothing is left open

  /** Everything but what the restoring leader changed is as before. */
  predicate Remade(s: Sys, s': Sys, view: set<Node>, plan: set<Node>, t: Token, kv: KeyValues) {
    && s'.cycles == s.cycles && s'.nextEpoch == s.nextEpoch + 1
    && s'.prepared == s.prepared && s'.created == s.created && s'.leading == s.leading && s'.acked == s.acked
    && s'.cfg == Recreated(s.cfg, view, plan, t) && s'.up == s.up - view + plan
    && s'.clusters.Keys == s.clusters.Keys + {t} && Has(s', t, plan, kv) && Stands(s', t, plan)
    && (forall u | u in s.clusters && u != t :: s'.clusters[u] == s.clusters[u])
  }

  /** A controller recreates the cluster and fails before the restore. */
  lemma RecreateAndFail(env: Env, slip: Option<Action>, s: Sys, x: Node, view: set<Node>, plan: set<Node>, t: Token) returns (s': Sys)
    requires Reached(env, slip, s) && CanLead(env, s, x, view) && Founder(env, x, view, plan) && t !in s.clusters
    requires s.created && s.caches[x] != []
    requires s.queue == s.caches[x] || slip == Some(Controller(ChooseCreate(s.nextEpoch, t, plan)))
    requires s.prepared == map[] && s.up <= s.cfg.Keys
    ensures Reached(env, slip, s') && Remade(s, s', view, plan, t, map[]) && s'.queue == s.queue && s'.caches == s.caches
    ensures s'.acc == s.acc + AllTo(view, s.nextEpoch) && s'.listening == s.listening + view
  {
    hide Reached, CanLead, Founder, AllTo, Recreated;
    assert plan != {} by { FounderPlan(env, x, view, plan); }
    FreshEpoch(env, s, x, view);
    var s1 := RecreateCycle(env, slip, s, x, view, plan, t, None);
    FormedStands(s1, s.cfg, view, plan, t);
    NewCycleEnds(s, s1, x, view);
    s' := EndCycle(env, slip, s1, s.nextEpoch);
    DurableFields(s1, s');
  }

  lemma FreshEpoch(env: Env, s: Sys, x: Node, view: set<Node>)
    requires CanLead(env, s, x, view)
    ensures s.nextEpoch !in s.cycles && x in s.caches
  {
  }

  /** A controller recreates the cluster, restores the first command's backup, and removes the command. */
  lemma RestoreAndRemove(env: Env, slip: Option<Action>, s: Sys, x: Node, view: set<Node>, plan: set<Node>, t: Token,
                         u: Token, base: set<Node>, n: Node) returns (s': Sys)
    requires Reached(env, slip, s) && CanLead(env, s, x, view) && Founder(env, x, view, plan) && t !in s.clusters
    requires s.created && s.caches[x] != [] && s.queue == s.caches[x] && s.prepared == map[] && s.up <= s.cfg.Keys
    requires Donor(s, view, plan, u, base, n)
    ensures Reached(env, slip, s') && Remade(s, s', view, plan, t, s.queue[0])
    ensures s'.queue == s.queue[1..] && s'.caches == s.caches[x := s.queue[1..]]
  {
    hide Reached, CanLead, Founder, AllTo, Recreated, Donor;
    assert plan != {} by { FounderPlan(env, x, view, plan); }
    FreshEpoch(env, s, x, view);
    var e := s.nextEpoch;
    var s1 := RestoreCycle(env, slip, s, x, view, plan, t, u, base, n);
    FormedStands(s1, s.cfg, view, plan, t);
    assert At(s1, e) && Unsuperseded(s1, e);
    NewCycleEnds(s, s1, x, view);
    s' := RemoveFirst(env, slip, s1, e);
    RemadeBy(s, s1, s', e);
  }

  lemma RemadeBy(s: Sys, s1: Sys, s': Sys, e: Epoch)
    requires e in s1.cycles && s1.queue != []
    requires Durable(s') == Durable(s1).(queue := s1.queue[1..], caches := s1.caches[s1.cycles[e].owner := s1.queue[1..]])
    ensures s'.cfg == s1.cfg && s'.up == s1.up && s'.prepared == s1.prepared && s'.clusters == s1.clusters
    ensures s'.created == s1.created && s'.leading == s1.leading && s'.acked == s1.acked && s'.queue == s1.queue[1..]
    ensures s'.caches == s1.caches[s1.cycles[e].owner := s1.queue[1..]]
  {
    var d := Durable(s');
    assert d.cfg == s'.cfg && d.up == s'.up && d.prepared == s'.prepared && d.clusters == s'.clusters;
    assert d.created == s'.created && d.leading == s'.leading && d.acked == s'.acked && d.queue == s'.queue && d.caches == s'.caches;
  }

  /** A controller starts a new term: it reads the queue. */
  lemma Reelected(env: Env, slip: Option<Action>, s: Sys, y: Node) returns (s': Sys)
    requires Reached(env, slip, s) && y in env.nodes && s.leading == env.nodes
    ensures Reached(env, slip, s') && s' == s.(caches := s.caches[y := s.queue])
  {
    hide Reached;
    Happen(env, slip, s, Elect(y));
    s' := DoLocally(env, s, Elect(y));
    assert env.nodes + {y} == env.nodes;
  }
}
