/** Why the safety theorems assume what they assume. For each hypothesis there is a run in which a single
    step breaks it, every other step is disciplined, and a client reads something other than the
    acknowledged writes. In all of them each controller is the lowest of its view and runs its cycles one
    after the other. */
module ProtocolLimits {
  import opened Options
  import opened Sets
  import opened Quorum
  import opened Protocol
  import opened ProtocolRuns
  import opened ProtocolStories

  /** A client of node n reads something else than what was acknowledged. */
  predicate Wrong(s: Sys, n: Node) {
    Serving(s, n) && s.clusters[s.cfg[n].token].kv != s.acked
  }

  /** y can lead the view. */
  predicate Leader(env: Env, y: Node, view: set<Node>) {
    y in view && view <= env.nodes && (forall n | n in view :: y <= n) && |view| >= env.Q()
  }

  lemma Values()
    ensures DATA != map[] && NEWER != DATA && DATA["k" := "w"] == NEWER
  {
    assert "k" in DATA && DATA["k"] == "v" && NEWER["k"] == "w";
  }

  lemma LiftedServes(s: Sys, t: Token, plan: set<Node>, n: Node)
    requires Stands(s, t, plan) && n in plan && !s.cfg[n].quarantined
    ensures Serving(s, n)
  {
    StandsIsQuorate(s, t, plan);
  }

  lemma ReflagStands(s: Sys, s': Sys, t: Token, plan: set<Node>, todo: set<Node>)
    requires Stands(s, t, plan) && s'.cfg == Reflag(s.cfg, todo, false) && s'.up == s.up + todo && s'.clusters == s.clusters
    ensures Stands(s', t, plan) && forall n | n in todo && n in s.cfg :: n in s'.cfg && s'.cfg[n] == s.cfg[n].(quarantined := false)
  {
  }

  lemma Leads(env: Env, s: Sys, y: Node, view: set<Node>)
    requires Leader(env, y, view) && s.leading == env.nodes && y in s.caches && s.nextEpoch !in s.cycles
    requires forall e | e in s.cycles :: s.cycles[e].owner != y
    ensures CanLead(env, s, y, view)
  {
  }

  lemma FounderLeads(env: Env, x: Node, view: set<Node>, plan: set<Node>)
    requires Founder(env, x, view, plan)
    ensures Leader(env, x, view) && plan <= view && plan != {} && |plan| >= env.Q() && x in env.nodes
  {
  }

  /** A lift that is disciplined, or is the slip, at a cluster with the wrong contents. */
  lemma LiftsWrong(env: Env, slip: Option<Action>, s: Sys, y: Node, view: set<Node>, t: Token, plan: set<Node>, n: Node)
    returns (s': Sys)
    requires Reached(env, slip, s) && CanLead(env, s, y, view) && Stands(s, t, plan) && |plan| >= env.Q()
    requires s.created && s.caches[y] == [] && (s.queue == [] || slip == Some(Controller(ChooseLift(s.nextEpoch))))
    requires n in view && n in plan && s.cfg[n].quarantined && s.clusters[t].kv != s.acked
    ensures Reached(env, slip, s') && Wrong(s', n)
  {
    hide Reached, CanLead, NewCycle, Reflag;
    s' := LiftCycle(env, slip, s, y, view, t, plan, {n}, n);
    assert Durable(s').cfg == s'.cfg && Durable(s').up == s'.up && Durable(s').clusters == s'.clusters && Durable(s').acked == s'.acked;
    ReflagStands(s, s', t, plan, {n});
    LiftedServes(s', t, plan, n);
  }

  lemma RemadeFlag(s: Sys, s': Sys, view: set<Node>, plan: set<Node>, t: Token, kv: KeyValues, n: Node)
    requires Remade(s, s', view, plan, t, kv) && n in plan
    ensures n in s'.cfg && s'.cfg[n] == Config(t, true) && t in s'.clusters && s'.clusters[t].kv == kv && Stands(s', t, plan)
    ensures s.up <= s.cfg.Keys ==> s'.up <= s'.cfg.Keys
  {
  }

  // ---------------------------------------------------------------- stale queues

  /** Lifting on a cached queue that misses the queued restore. Controller x has queued the restore and
      recreated the cluster; controller y, elected before that, still has the empty queue. */
  lemma StaleLiftLosesWrites(env: Env, x: Node, v: set<Node>, p: set<Node>, y: Node, w: set<Node>, n: Node) returns (s: Sys)
    requires Founder(env, x, v, p) && |p| == env.memberCount && Leader(env, y, w) && x != y && n in p && n in w
    ensures Reached(env, Some(Controller(ChooseLift(4))), s) && Wrong(s, n)
  {
    hide Reached, CanLead, AllTo, Recreated;
    var slip := Some(Controller(ChooseLift(4)));
    FounderLeads(env, x, v, p);
    Values();
    var s1 := Queued(env, slip, x, v, p);
    RestFields(env, s1, AllTo(p, Config(1, true)), p, true, [DATA], Empty(env)[x := [DATA]], DATA);
    LeadsAgain(env, s1, x, v, p);
    AllKeys(p, Config(1, true));
    var s2 := RecreateAndFail(env, slip, s1, x, v, p, 2);
    RemadeFlag(s1, s2, v, p, 2, map[], n);
    hide Remade, Stands, Founder;
    Leads(env, s2, y, w);
    s := LiftsWrong(env, slip, s2, y, w, 2, p, n);
  }

  /** Creating on a cached queue that still has a restore command that was carried out. Controller y, elected
      while the command was queued, recreates the cluster again, empty. */
  lemma StaleCreateLosesWrites(env: Env, x: Node, v: set<Node>, p: set<Node>, y: Node, w: set<Node>, r: set<Node>, n: Node)
    returns (s: Sys)
    requires Founder(env, x, v, p) && |p| == env.memberCount && Founder(env, y, w, r) && x != y && n in r
    ensures Reached(env, Some(Controller(ChooseCreate(4, 3, r))), s) && Wrong(s, n)
  {
    hide Reached, CanLead, AllTo, Recreated;
    var slip := Some(Controller(ChooseCreate(4, 3, r)));
    FounderLeads(env, x, v, p);
    FounderLeads(env, y, w, r);
    Values();
    var s1 := Queued(env, slip, x, v, p);
    RestFields(env, s1, AllTo(p, Config(1, true)), p, true, [DATA], Empty(env)[x := [DATA]], DATA);
    AllKeys(p, Config(1, true));
    var s2 := Reelected(env, slip, s1, y);
    Leads(env, s2, x, v);
    var q := Any(p);
    AllStand(s2, 1, p, DATA, true);
    var s3 := RestoreAndRemove(env, slip, s2, x, v, p, 2, 1, p, q);
    RemadeFlag(s2, s3, v, p, 2, DATA, q);
    RemadeKeeps(s2, s3, v, p, 2, DATA);
    hide Remade, Stands;
    Leads(env, s3, y, w);
    var s4 := RecreateAndFail(env, slip, s3, y, w, r, 3);
    RemadeFlag(s3, s4, w, r, 3, map[], n);
    RemadeKeeps(s3, s4, w, r, 3, map[]);
    s := ReelectedLiftsWrong(env, slip, s4, y, w, 3, r, n);
  }

  lemma RemadeKeeps(s: Sys, s': Sys, view: set<Node>, plan: set<Node>, t: Token, kv: KeyValues)
    requires Remade(s, s', view, plan, t, kv)
    ensures s'.cycles == s.cycles && s'.nextEpoch == s.nextEpoch + 1 && s'.prepared == s.prepared && s'.created == s.created
    ensures s'.leading == s.leading && s'.acked == s.acked && s'.clusters.Keys == s.clusters.Keys + {t}
  {
  }

  /** After a new election the lift is disciplined. */
  lemma ReelectedLiftsWrong(env: Env, slip: Option<Action>, s: Sys, y: Node, view: set<Node>, t: Token, plan: set<Node>, n: Node)
    returns (s': Sys)
    requires Reached(env, slip, s) && Leader(env, y, view) && Stands(s, t, plan) && |plan| >= env.Q()
    requires s.created && s.queue == [] && s.leading == env.nodes && s.nextEpoch !in s.cycles
    requires forall e | e in s.cycles :: s.cycles[e].owner != y
    requires n in view && n in plan && s.cfg[n].quarantined && s.clusters[t].kv != s.acked
    ensures Reached(env, slip, s') && Wrong(s', n)
  {
    hide Reached, CanLead;
    var s1 := Reelected(env, slip, s, y);
    Leads(env, s1, y, view);
    assert Stands(s1, t, plan);
    hide Stands;
    s' := LiftsWrong(env, slip, s1, y, view, t, plan, n);
  }

  /** Upgrading on a cached queue that misses the queued restore. Controller y dumps the cluster that x has
      recreated, still empty, and queues a second restore; both are carried out. */
  lemma StaleUpgradeLosesWrites(env: Env, x: Node, v: set<Node>, p: set<Node>, y: Node, w: set<Node>, n: Node) returns (s: Sys)
    requires Founder(env, x, v, p) && |p| == env.memberCount && Founder(env, y, w, p) && x != y && n in p
    ensures Reached(env, Some(Controller(ChooseUpgrade(4))), s) && Wrong(s, n)
  {
    hide Reached, CanLead, AllTo, Recreated;
    var slip := Some(Controller(ChooseUpgrade(4)));
    FounderLeads(env, x, v, p);
    FounderLeads(env, y, w, p);
    Values();
    var s1 := Queued(env, slip, x, v, p);
    RestFields(env, s1, AllTo(p, Config(1, true)), p, true, [DATA], Empty(env)[x := [DATA]], DATA);
    AllKeys(p, Config(1, true));
    LeadsAgain(env, s1, x, v, p);
    var s2 := RecreateAndFail(env, slip, s1, x, v, p, 2);
    RemadeWhole(s1, s2, v, p, 2, map[], Config(1, true));
    RemadeKeeps(s1, s2, v, p, 2, map[]);
    hide Remade, Stands, Leader;
    var s3 := DumpedAgain(env, slip, s2, p, y, w);
    s := RestoredTwice(env, slip, s3, p, y, w, n);
  }

  /** Both restores are carried out, the empty one last. */
  lemma RestoredTwice(env: Env, slip: Option<Action>, s3: Sys, p: set<Node>, y: Node, w: set<Node>, n: Node) returns (s: Sys)
    requires Reached(env, slip, s3) && Founder(env, y, w, p) && n in p && s3.cycles == map[] && s3.clusters.Keys == {1, 2} && s3.created
    requires s3.queue == [DATA, map[]] && y in s3.caches && s3.caches[y] == [DATA, map[]] && s3.leading == env.nodes
    requires s3.prepared == map[] && s3.up <= s3.cfg.Keys && s3.acked == DATA && Stands(s3, 2, p)
    ensures Reached(env, slip, s) && Wrong(s, n)
  {
    hide Reached, CanLead, AllTo, Recreated, Founder, Leader, Remade, Stands;
    FounderLeads(env, y, w, p);
    Values();
    Leads(env, s3, y, w);
    var s4 := RestoreAndRemove(env, slip, s3, y, w, p, 3, 2, p, n);
    RemadeFlag(s3, s4, w, p, 3, DATA, n);
    RemadeKeeps(s3, s4, w, p, 3, DATA);
    assert s4.queue == [map[]];
    Leads(env, s4, y, w);
    var s5 := RestoreAndRemove(env, slip, s4, y, w, p, 4, 3, p, n);
    RemadeFlag(s4, s5, w, p, 4, map[], n);
    RemadeKeeps(s4, s5, w, p, 4, map[]);
    Leads(env, s5, y, w);
    s := LiftsWrong(env, slip, s5, y, w, 4, p, n);
  }

  lemma RemadeWhole(s: Sys, s': Sys, v: set<Node>, p: set<Node>, t: Token, kv: KeyValues, c: Config)
    requires Remade(s, s', v, p, t, kv) && s.cfg == AllTo(p, c) && s.up == p && p <= v
    ensures s'.cfg == AllTo(p, Config(t, true)) && s'.up == p && Has(s', t, p, kv)
  {
    assert s.cfg - v == map[] && s.up - v == {};
  }

  /** The second dump, of the empty cluster. */
  lemma DumpedAgain(env: Env, slip: Option<Action>, s2: Sys, p: set<Node>, y: Node, w: set<Node>) returns (s: Sys)
    requires slip == Some(Controller(ChooseUpgrade(4))) && Reached(env, slip, s2) && Has(s2, 2, p, map[])
    requires Founder(env, y, w, p) && |p| == env.memberCount && s2.cycles == map[] && s2.nextEpoch == 4
    requires s2.cfg == AllTo(p, Config(2, true)) && s2.up == p && s2.created
    requires s2.queue == [DATA] && y in s2.caches && s2.caches[y] == [] && s2.leading == env.nodes && s2.prepared == map[]
    ensures Reached(env, slip, s) && s.cycles == map[] && s.nextEpoch == 5 && s.clusters == s2.clusters && s.created
    ensures s.queue == [DATA, map[]] && s.caches == s2.caches[y := [DATA, map[]]] && s.leading == env.nodes
    ensures s.prepared == map[] && s.up == s.cfg.Keys && s.acked == s2.acked && Stands(s, 2, p)
  {
    hide Reached, CanLead, AllTo, Reflag, Founder;
    FounderLeads(env, y, w, p);
    hide Leader;
    Leads(env, s2, y, w);
    AllStand(s2, 2, p, map[], true);
    SurveyFacts(env, s2, y, w, 2, p, true);
    AllFlagged(s2, w, p, 2);
    FreshEpoch(env, s2, y, w);
    CanStart(env, s2, y, w);
    var s3 := Gate(env, slip, s2, y, w, Some(2), true);
    DurableFields(s2, s3);
    hide Surveying, SameLeaders, Stands;
    AllStand(s3, 2, p, map[], true);
    var s4 := ProtocolRuns.Dump(env, slip, s3, 4, 2, p);
    ReflagAll(p, 2, true, true);
    s := QueuedAgain(env, slip, s3, s4, p, y);
    AllStand(s, 2, p, map[], true);
  }

  lemma CanStart(env: Env, s: Sys, y: Node, w: set<Node>)
    requires CanLead(env, s, y, w)
    ensures CanStep(env, s, Start(y, w)) && |w| >= env.Q()
  {
  }

  lemma AllFlagged(s: Sys, w: set<Node>, p: set<Node>, t: Token)
    requires s.cfg == AllTo(p, Config(t, true)) && p <= w
    ensures (set n | n in w && n in s.cfg && s.cfg[n].quarantined) == p == w - (w - s.cfg.Keys)
  {
  }

  lemma QueuedAgain(env: Env, slip: Option<Action>, s3: Sys, s4: Sys, p: set<Node>, y: Node) returns (s: Sys)
    requires Reached(env, slip, s4) && SameLeaders(s3, s4, 4) && Followed(s3, 4) && s3.nextEpoch == 5
    requires s3.cycles == map[4 := s3.cycles[4]] && s3.cycles[4].owner == y && y in s3.caches && s3.queue == [DATA]
    requires Durable(s4) == Durable(s3).(cfg := AllTo(p, Config(2, true)), up := s3.up + p) && s3.up == p
    requires s4.cycles == s3.cycles[4 := s3.cycles[4].(pc := Queueing(map[]), gen := s3.gen)]
    ensures Reached(env, slip, s) && s.cycles == map[] && s.nextEpoch == 5 && s.clusters == s3.clusters && s.created == s3.created
    ensures s.queue == [DATA, map[]] && s.caches == s3.caches[y := [DATA, map[]]] && s.leading == s3.leading
    ensures s.prepared == s3.prepared && s.up == s.cfg.Keys && s.acked == s3.acked && s.cfg == AllTo(p, Config(2, true)) && s.up == p
  {
    hide Reached;
    assert Unsuperseded(s4, 4);
    Note(env, slip, s4, 4, AddCommand);
    var s5 := DoWrite(s4, 4, AddCommand);
    s := EndCycle(env, slip, s5, 4);
    DurableFields(s5, s);
    assert [DATA] + [map[]] == [DATA, map[]];
    assert s3.up + p == p;
    AllKeys(p, Config(2, true));
    assert s4.clusters == s3.clusters && s4.caches == s3.caches;
  }

  /** Expanding on a cached queue that misses the queued restore: the machine that joins the recreated
      cluster, still empty, is open to clients at once. */
  lemma StaleExpandLosesWrites(env: Env, x: Node, v: set<Node>, p: set<Node>, v': set<Node>, r: set<Node>, y: Node, w: set<Node>, m: Node)
    returns (s: Sys)
    requires Founder(env, x, v, p) && |p| == env.memberCount && m in p
    requires Founder(env, x, v', r) && |r| < env.memberCount && m !in v'
    requires Leader(env, y, w) && x != y && m in w
    ensures Reached(env, Some(Controller(ChooseExpand(4, m))), s) && Wrong(s, m)
  {
    hide Reached, CanLead, AllTo, Recreated, Founder, Remade, Stands;
    var slip := Some(Controller(ChooseExpand(4, m)));
    FounderLeads(env, x, v, p);
    FounderLeads(env, x, v', r);
    LeaderKnown(env, y, w);
    Values();
    var s1 := HaltedAt(env, slip, x, v, p, m);
    Leads(env, s1, x, v');
    assert x in s1.caches && y in s1.caches && s1.caches[y] == [];
    AllKeys(p, Config(1, true));
    var s2 := RecreateAndFail(env, slip, s1, x, v', r, 2);
    RemadeKeeps(s1, s2, v', r, 2, map[]);
    AllQuarantined(s1, s2, p, v', r, m);
    hide Leader;
    var s3 := Expanded(env, slip, s2, r, y, w, m);
    s := s3;
  }

  /** The restore is queued, and one member is stopped. */
  lemma HaltedAt(env: Env, slip: Option<Action>, x: Node, v: set<Node>, p: set<Node>, m: Node) returns (s: Sys)
    requires Founder(env, x, v, p) && |p| == env.memberCount && m in p
    ensures Reached(env, slip, s) && s.cycles == map[] && s.nextEpoch == 3 && s.clusters.Keys == {1}
    ensures s.cfg == AllTo(p, Config(1, true)) - {m} && s.up == p - {m} == s.cfg.Keys && s.prepared == map[] && s.created
    ensures s.queue == [DATA] && s.caches == Empty(env)[x := [DATA]] && s.leading == env.nodes && s.acked == DATA
  {
    hide Reached;
    FounderLeads(env, x, v, p);
    hide Founder;
    var s1 := Dumped(env, slip, x, v, p);
    RestFields(env, s1, AllTo(p, Config(1, true)), p, true, [], Empty(env), DATA);
    assert Unsuperseded(s1, 2);
    Note(env, slip, s1, 2, AddCommand);
    var s2 := DoWrite(s1, 2, AddCommand);
    assert [] + [DATA] == [DATA];
    assert Fenced(s1, 2, m) && Fenced(s2, 2, m) && m in s2.cfg;
    Ask(env, slip, s2, 2, m, Halt);
    var s3 := DoRequest(s2, 2, m, Halt);
    s := EndCycle(env, slip, s3, 2);
    DurableFields(s3, s);
  }

  lemma AllQuarantined(s1: Sys, s2: Sys, p: set<Node>, v: set<Node>, r: set<Node>, m: Node)
    requires Remade(s1, s2, v, r, 2, map[]) && s1.cfg == AllTo(p, Config(1, true)) - {m} && m !in v && r <= v && s1.up == s1.cfg.Keys
    ensures (forall n | n in s2.cfg :: s2.cfg[n].quarantined) && m !in s2.cfg && m !in s2.up && Stands(s2, 2, r) && Has(s2, 2, r, map[])
  {
  }

  lemma Expanded(env: Env, slip: Option<Action>, s: Sys, r: set<Node>, y: Node, w: set<Node>, m: Node) returns (s': Sys)
    requires slip == Some(Controller(ChooseExpand(4, m))) && Reached(env, slip, s) && Leader(env, y, w) && m in w
    requires s.cycles == map[] && s.nextEpoch == 4 && s.leading == env.nodes && y in s.caches && s.caches[y] == []
    requires s.created && s.prepared == map[] && s.acked == DATA && (forall n | n in s.cfg :: s.cfg[n].quarantined)
    requires m !in s.cfg && m !in s.up && Stands(s, 2, r) && Has(s, 2, r, map[]) && |r| < env.memberCount && |r| >= env.Q()
    ensures Reached(env, slip, s') && Wrong(s', m)
  {
    hide Reached, CanLead, Leader;
    Leads(env, s, y, w);
    CanStart(env, s, y, w);
    SurveyFacts(env, s, y, w, 2, r, true);
    var s1 := Gate(env, slip, s, y, w, Some(2), true);
    DurableFields(s, s1);
    OnlyQuarantined(s, w);
    hide Surveying, Quorate;
    Go(env, slip, s1, ChooseExpand(4, m));
    var s2 := DoStep(env, s1, ChooseExpand(4, m));
    assert Fenced(s1, 4, m) && Fenced(s2, 4, m);
    hide CanStep, DoStep, Followed, Uniform, Liftable;
    s' := Joined(env, slip, s2, r, m);
  }

  lemma OnlyQuarantined(s: Sys, w: set<Node>)
    requires forall n | n in s.cfg :: s.cfg[n].quarantined
    ensures (set n | n in w && n in s.cfg && s.cfg[n].quarantined) == w - (w - s.cfg.Keys)
  {
  }

  lemma Joined(env: Env, slip: Option<Action>, s: Sys, r: set<Node>, m: Node) returns (s': Sys)
    requires Reached(env, slip, s) && Fenced(s, 4, m) && s.cycles[4].pc == Expanding(Inviting, m) && At(s, 4)
    requires s.cycles[4].obs == Some(2) && s.prepared == map[] && m !in s.up && s.acked == DATA
    requires Stands(s, 2, r) && Has(s, 2, r, map[])
    ensures Reached(env, slip, s') && Wrong(s', m)
  {
    hide Reached, Quorate;
    Ask(env, slip, s, 4, m, PrepareJoin);
    var s1 := DoRequest(s, 4, m, PrepareJoin);
    StandsIsQuorate(s1, 2, r);
    Note(env, slip, s1, 4, AddMember);
    var s2 := DoWrite(s1, 4, AddMember);
    assert s2.prepared == map[m := 2] && s2.clusters[2].members == r + {m} && s2.clusters[2].kv == map[];
    s' := JoinedLast(env, slip, s2, r, m);
  }

  lemma JoinedLast(env: Env, slip: Option<Action>, s: Sys, r: set<Node>, m: Node) returns (s': Sys)
    requires Reached(env, slip, s) && Fenced(s, 4, m) && s.cycles[4].pc == Expanding(Joining, m) && s.cycles[4].obs == Some(2)
    requires s.prepared == map[m := 2] && m !in s.up && s.acked == DATA && Has(s, 2, r + {m}, map[])
    requires forall n | n in r :: n in s.cfg && s.cfg[n].token == 2 && n in s.up
    ensures Reached(env, slip, s') && Wrong(s', m)
  {
    hide Reached;
    Values();
    Ask(env, slip, s, 4, m, Join);
    s' := DoRequest(s, 4, m, Join);
    assert Stands(s', 2, r + {m});
    LiftedServes(s', 2, r + {m}, m);
  }

  // ---------------------------------------------------------------- superseded leaders

  /** Queueing a dump after another leader has opened the cluster again: a client writes in between, and the
      restore brings the older value back. */
  lemma SupersededAddLosesWrites(env: Env, x: Node, v: set<Node>, p: set<Node>, y: Node, w: set<Node>, n: Node) returns (s: Sys)
    requires Founder(env, x, v, p) && |p| == env.memberCount && Leader(env, y, w) && x != y && n in p && n in w
    ensures Reached(env, Some(Unfenced(2, AddCommand)), s) && Wrong(s, n)
  {
    hide Reached, CanLead, AllTo, Recreated, Founder, Remade, Stands;
    var slip := Some(Unfenced(2, AddCommand));
    FounderLeads(env, x, v, p);
    Values();
    var s1 := Dumped(env, slip, x, v, p);
    RestFields(env, s1, AllTo(p, Config(1, true)), p, true, [], Empty(env), DATA);
    var s2 := LiftedAndWritten(env, slip, s1, x, p, y, w, n);
    var s3 := QueuedLate(env, slip, s2, x);
    Leads(env, s3, x, v);
    assert Durable(s3).cfg == s3.cfg && Durable(s3).up == s3.up && Durable(s3).clusters == s3.clusters;
    SameStands(s2, s3, 1, p);
    var s4 := RestoreAndRemove(env, slip, s3, x, v, p, 2, 1, p, n);
    RemadeFlag(s3, s4, v, p, 2, DATA, n);
    RemadeKeeps(s3, s4, v, p, 2, DATA);
    assert |s4.queue| == 0;
    Leads(env, s4, x, v);
    s := LiftsWrong(env, slip, s4, x, v, 2, p, n);
  }

  /** Leader y lifts the quarantine at n, and a client writes the newer value there. */
  lemma LiftedAndWritten(env: Env, slip: Option<Action>, s: Sys, x: Node, p: set<Node>, y: Node, w: set<Node>, n: Node) returns (s': Sys)
    requires Reached(env, slip, s) && Leader(env, y, w) && x != y && n in p && n in w && |p| >= env.Q()
    requires 2 in s.cycles && s.cycles == map[2 := s.cycles[2]] && s.cycles[2].owner == x && s.cycles[2].pc == Queueing(DATA)
    requires s.nextEpoch == 3 && s.cfg == AllTo(p, Config(1, true)) && s.up == p && Has(s, 1, p, DATA) && s.clusters.Keys == {1}
    requires s.created && s.queue == [] && s.caches == Empty(env) && s.leading == env.nodes && s.acked == DATA && s.prepared == map[]
    ensures Reached(env, slip, s') && s'.cycles == s.cycles && s'.nextEpoch == 4 && s'.acked == NEWER
    ensures s'.clusters.Keys == {1} && s'.up == p == s'.cfg.Keys && s'.created && s'.queue == [] && s'.caches == s.caches
    ensures s'.leading == env.nodes && s'.prepared == map[] && Stands(s', 1, p)
  {
    hide Reached, CanLead, Leader;
    AllStand(s, 1, p, DATA, true);
    LeaderKnown(env, y, w);
    Leads(env, s, y, w);
    FreshEpoch(env, s, y, w);
    assert s.cfg[n].quarantined;
    var s1 := LiftCycle(env, slip, s, y, w, 1, p, {n}, n);
    NewCycleEnds(s, s1, y, w);
    var s2 := EndCycle(env, slip, s1, 3);
    DurableFields(s1, s2);
    ReflagStands(s, s2, 1, p, {n});
    LiftedServes(s2, 1, p, n);
    Values();
    hide NewCycle, Stands, Serving;
    Happen(env, slip, s2, ClientWrite(n, "k", Some("w")));
    s' := DoLocally(env, s2, ClientWrite(n, "k", Some("w")));
    assert s2.cfg.Keys == p && p + {n} == p;
    assert s2.clusters.Keys == {1} && s'.clusters.Keys == {1};
    WrittenStands(s2, s', 1, p);
  }

  lemma WrittenStands(s: Sys, s': Sys, t: Token, plan: set<Node>)
    requires Stands(s, t, plan) && s'.cfg == s.cfg && s'.up == s.up && t in s'.clusters && s'.clusters[t].members == s.clusters[t].members
    ensures Stands(s', t, plan)
  {
  }

  lemma LeaderKnown(env: Env, y: Node, w: set<Node>)
    requires Leader(env, y, w)
    ensures y in env.nodes
  {
  }

  /** The superseded leader queues its dump. */
  lemma QueuedLate(env: Env, slip: Option<Action>, s: Sys, x: Node) returns (s': Sys)
    requires slip == Some(Unfenced(2, AddCommand)) && Reached(env, slip, s) && s.queue == []
    requires 2 in s.cycles && s.cycles == map[2 := s.cycles[2]] && s.cycles[2].owner == x && s.cycles[2].pc == Queueing(DATA)
    requires x in s.caches
    ensures Reached(env, slip, s') && s'.cycles == map[] && s'.nextEpoch == s.nextEpoch && s'.queue == [DATA]
    ensures Durable(s') == Durable(s).(queue := [DATA], caches := s.caches[x := [DATA]])
  {
    hide Reached;
    Note(env, slip, s, 2, AddCommand);
    var s1 := DoWrite(s, 2, AddCommand);
    s' := EndCycle(env, slip, s1, 2);
    assert [] + [DATA] == [DATA];
    DurableFields(s1, s');
  }

  /** Removing the command after another leader has recreated the cluster again: what is lifted is empty. */
  lemma SupersededRemoveLosesWrites(env: Env, x: Node, v: set<Node>, p: set<Node>, y: Node, w: set<Node>, r: set<Node>, n: Node)
    returns (s: Sys)
    requires Founder(env, x, v, p) && |p| == env.memberCount && Founder(env, y, w, r) && x != y && n in r
    ensures Reached(env, Some(Unfenced(3, RemoveCommand)), s) && Wrong(s, n)
  {
    hide Reached, CanLead, AllTo, Recreated, Founder, Remade, Stands;
    var slip := Some(Unfenced(3, RemoveCommand));
    FounderLeads(env, x, v, p);
    FounderLeads(env, y, w, r);
    Values();
    var s1 := Queued(env, slip, x, v, p);
    RestFields(env, s1, AllTo(p, Config(1, true)), p, true, [DATA], Empty(env)[x := [DATA]], DATA);
    AllKeys(p, Config(1, true));
    var s2 := Reelected(env, slip, s1, y);
    Leads(env, s2, x, v);
    AllStand(s2, 1, p, DATA, true);
    var q := Any(p);
    var s3 := RestoreCycle(env, slip, s2, x, v, p, 2, 1, p, q);
    RestoredFields(s2, s3, x, v, p);
    hide NewCycle, Followed;
    Leads(env, s3, y, w);
    var s4 := RecreateAndFail(env, slip, s3, y, w, r, 3);
    RemadeFlag(s3, s4, w, r, 3, map[], n);
    RemadeKeeps(s3, s4, w, r, 3, map[]);
    assert At(s4, 3);
    var s5 := RemoveFirst(env, slip, s4, 3);
    RemadeBy(s3, s4, s5, 3);
    assert |s5.queue| == 0;
    SameStands(s4, s5, 3, r);
    s := ReelectedLiftsWrong(env, slip, s5, y, w, 3, r, n);
  }

  lemma SameStands(s: Sys, s': Sys, t: Token, plan: set<Node>)
    requires Stands(s, t, plan) && s'.cfg == s.cfg && s'.up == s.up && s'.clusters == s.clusters
    ensures Stands(s', t, plan)
  {
  }

  lemma RestoredFields(s: Sys, s': Sys, x: Node, v: set<Node>, p: set<Node>)
    requires NewCycle(s, s', x, v) && s.cycles == map[] && s.nextEpoch == 3 && p <= v && s.up <= s.cfg.Keys
    requires Durable(s') == Durable(s).(cfg := Recreated(s.cfg, v, p, 2), up := s.up - v + p, clusters := s'.clusters)
    ensures 3 in s'.cycles && s'.cycles == map[3 := s'.cycles[3]] && s'.cycles[3].owner == x && s'.nextEpoch == 4
    ensures s'.up <= s'.cfg.Keys && s'.prepared == s.prepared && s'.created == s.created && s'.queue == s.queue
    ensures s'.caches == s.caches && s'.leading == s.leading && s'.acked == s.acked
  {
    var d := Durable(s');
    assert d.cfg == s'.cfg && d.up == s'.up && d.prepared == s'.prepared && d.created == s'.created && d.queue == s'.queue;
    assert d.caches == s'.caches && d.leading == s'.leading && d.acked == s'.acked;
  }

  /** Marking the cluster as created after another leader has chosen to create it: a third leader, which
      surveyed before that, then finds the mark and opens the first cluster; the second replaces it. */
  lemma SupersededMarkLosesWrites(env: Env, x: Node, v: set<Node>, p: set<Node>, y: Node, w: set<Node>, m: Node,
                                  z: Node, u: set<Node>, r: set<Node>, n: Node) returns (s: Sys)
    requires Founder(env, x, v, p) && Leader(env, y, w) && Founder(env, z, u, r) && x != y && y != z && z != x
    requires m in w && m in p && m !in u && n in r
    ensures Reached(env, Some(Unfenced(0, Mark)), s) && Wrong(s, n)
  {
    hide Reached, CanLead, AllTo, Recreated, Stands, Founder;
    var slip := Some(Unfenced(0, Mark));
    FounderLeads(env, x, v, p);
    FounderLeads(env, z, u, r);
    LeaderKnown(env, y, w);
    Values();
    var s1 := Formed(env, slip, x, v, p);
    var s2 := BothDecided(env, slip, s1, x, p, y, w, m, z, u, r);
    var s3 := MarkedAndOpened(env, slip, s2, x, p, y, w, m, z, u, r);
    var s4 := Carry(env, slip, s3, 2);
    CarriedFields(s3, s4, u, r);
    var s5 := EndCycle(env, slip, s4, 2);
    DurableFields(s4, s5);
    SameStands(s4, s5, 2, r);
    hide Followed;
    Leads(env, s5, z, u);
    s := LiftsWrong(env, slip, s5, z, u, 2, r, n);
  }

  /** y has surveyed, and z has surveyed and chosen to create. */
  lemma BothDecided(env: Env, slip: Option<Action>, s: Sys, x: Node, p: set<Node>, y: Node, w: set<Node>, m: Node,
                    z: Node, u: set<Node>, r: set<Node>) returns (s': Sys)
    requires Reached(env, slip, s) && Leader(env, y, w) && Founder(env, z, u, r) && x != y && y != z && z != x
    requires s.nextEpoch == 1 && 0 in s.cycles && s.cycles == map[0 := s.cycles[0]] && s.cycles[0].owner == x
    requires s.cfg == AllTo(p, Config(1, true)) && s.up == p && Has(s, 1, p, map[]) && s.clusters.Keys == {1} && p != {} && |p| >= env.Q()
    requires !s.created && s.queue == [] && s.caches == Empty(env) && s.leading == env.nodes && s.prepared == map[]
    requires m in w && m in p && m !in u
    ensures Reached(env, slip, s') && s'.nextEpoch == 3
    ensures s'.cycles.Keys == {0, 1, 2} && s'.cycles[0] == s.cycles[0] && Fenced(s', 1, m) && Followed(s', 2)
    ensures s'.cycles[1].owner == y && s'.cycles[1].pc == Surveyed && s'.cycles[1].obs == Some(1) && Liftable(s'.cycles[1]) && Backed(env, s', 1)
    ensures s'.cycles[2].owner == z && s'.cycles[2].view == u
    ensures s'.cycles[2].pc == Creating(Clearing, Fresh, 2, r, u - (u - p))
    ensures Durable(s') == Durable(s).(clusters := s'.clusters)
    ensures s'.clusters.Keys == {1, 2} && Has(s', 1, p, map[]) && Has(s', 2, r, map[])
  {
    hide Reached, CanLead, Leader;
    LeaderKnown(env, y, w);
    FounderLeads(env, z, u, r);
    AllStand(s, 1, p, map[], true);
    Leads(env, s, y, w);
    CanStart(env, s, y, w);
    SurveyFacts(env, s, y, w, 1, p, false);
    var s1 := Gate(env, slip, s, y, w, Some(1), false);
    DurableFields(s, s1);
    assert m in s1.cycles[1].flagged;
    hide Surveying;
    s' := SecondChooses(env, slip, s1, x, p, y, w, m, z, u, r);
  }

  lemma SecondChooses(env: Env, slip: Option<Action>, s: Sys, x: Node, p: set<Node>, y: Node, w: set<Node>, m: Node,
                      z: Node, u: set<Node>, r: set<Node>) returns (s': Sys)
    requires Reached(env, slip, s) && Founder(env, z, u, r) && y != z && z != x
    requires s.nextEpoch == 2 && s.cycles.Keys == {0, 1} && s.cycles[0].owner == x && s.cycles[1].owner == y && Fenced(s, 1, m)
    requires s.cfg == AllTo(p, Config(1, true)) && s.up == p && Has(s, 1, p, map[]) && s.clusters.Keys == {1}
    requires !s.created && s.queue == [] && s.caches == Empty(env) && s.leading == env.nodes && s.prepared == map[] && m !in u
    ensures Reached(env, slip, s') && s'.nextEpoch == 3
    ensures s'.cycles.Keys == {0, 1, 2} && s'.cycles[0] == s.cycles[0] && s'.cycles[1] == s.cycles[1] && Fenced(s', 1, m) && Followed(s', 2)
    ensures s'.cycles[2].owner == z && s'.cycles[2].view == u
    ensures s'.cycles[2].pc == Creating(Clearing, Fresh, 2, r, u - (u - p))
    ensures Durable(s') == Durable(s).(clusters := s'.clusters)
    ensures s'.clusters.Keys == {1, 2} && Has(s', 1, p, map[]) && Has(s', 2, r, map[])
  {
    hide Reached, CanLead;
    FounderLeads(env, z, u, r);
    Leads(env, s, z, u);
    CanStart(env, s, z, u);
    var s1 := Gate(env, slip, s, z, u, None, false);
    DurableFields(s, s1);
    AllKeys(p, Config(1, true));
    Go(env, slip, s1, ChooseCreate(2, 2, r));
    s' := DoStep(env, s1, ChooseCreate(2, 2, r));
    Chosen(env, s1, 2, 2, r);
    StillFollowed(s1, s', 2);
    assert s1.acc[m] == 1 && m in s1.listening;
  }

  /** x marks the cluster, y opens it, and a client writes. */
  lemma MarkedAndOpened(env: Env, slip: Option<Action>, s: Sys, x: Node, p: set<Node>, y: Node, w: set<Node>, m: Node,
                        z: Node, u: set<Node>, r: set<Node>) returns (s': Sys)
    requires slip == Some(Unfenced(0, Mark)) && Reached(env, slip, s) && x in s.caches && y in s.caches && s.nextEpoch == 3
    requires s.cycles.Keys == {0, 1, 2} && s.cycles[0].owner == x && s.cycles[0].pc == Creating(Forming, Fresh, 1, p, {})
    requires s.cycles[1].owner == y && s.cycles[1].pc == Surveyed && s.cycles[1].obs == Some(1) && Liftable(s.cycles[1]) && Backed(env, s, 1)
    requires s.cycles[2].owner == z && s.cycles[2].view == u && s.cycles[2].pc == Creating(Clearing, Fresh, 2, r, u - (u - p))
    requires Fenced(s, 1, m) && Followed(s, 2) && m in p
    requires s.cfg == AllTo(p, Config(1, true)) && s.up == p && Has(s, 1, p, map[]) && Has(s, 2, r, map[]) && p != {}
    requires s.queue == [] && s.caches == Empty(env) && s.leading == env.nodes && s.prepared == map[] && s.acked == map[]
    ensures Reached(env, slip, s') && Followed(s', 2) && s'.cycles.Keys == {1, 2} && s'.nextEpoch == 3
    ensures s'.cycles[1].owner == y && s'.cycles[2] == s.cycles[2] && s'.created && s'.queue == [] && s'.caches == Empty(env)
    ensures s'.leading == env.nodes && s'.prepared == map[] && s'.acked == DATA && s'.cfg.Keys == p == s'.up && Has(s', 2, r, map[])
  {
    hide Reached;
    Note(env, slip, s, 0, Mark);
    var s1 := DoWrite(s, 0, Mark);
    assert Fenced(s1, 1, m) && Followed(s1, 2);
    hide CanWrite, DoWrite;
    s' := OpenedByThird(env, slip, s1, p, y, m, r);
  }

  lemma OpenedByThird(env: Env, slip: Option<Action>, s1: Sys, p: set<Node>, y: Node, m: Node, r: set<Node>) returns (s': Sys)
    requires Reached(env, slip, s1) && y in s1.caches && s1.nextEpoch == 3 && s1.created && s1.cycles.Keys == {1, 2}
    requires s1.cycles[1].owner == y && s1.cycles[1].pc == Surveyed && s1.cycles[1].obs == Some(1) && Liftable(s1.cycles[1]) && Backed(env, s1, 1)
    requires Fenced(s1, 1, m) && Followed(s1, 2) && m in p
    requires s1.cfg == AllTo(p, Config(1, true)) && s1.up == p && Has(s1, 1, p, map[]) && Has(s1, 2, r, map[]) && p != {}
    requires s1.queue == [] && s1.caches == Empty(env) && s1.leading == env.nodes && s1.prepared == map[] && s1.acked == map[]
    ensures Reached(env, slip, s') && Followed(s', 2) && s'.cycles.Keys == {1, 2} && s'.nextEpoch == 3
    ensures s'.cycles[1].owner == y && s'.cycles[2] == s1.cycles[2] && s'.created && s'.queue == [] && s'.caches == Empty(env)
    ensures s'.leading == env.nodes && s'.prepared == map[] && s'.acked == DATA && s'.cfg.Keys == p == s'.up && Has(s', 2, r, map[])
  {
    hide Reached;
    AllStand(s1, 1, p, map[], true);
    var s2 := Open(env, slip, s1, 1, {m});
    StillFollowed2(s1, s2, 1, 2);
    assert Durable(s2).cfg == s2.cfg && Durable(s2).up == s2.up && Durable(s2).clusters == s2.clusters;
    assert Durable(s2).acked == s2.acked && Durable(s2).caches == s2.caches && Durable(s2).queue == s2.queue;
    assert Durable(s2).created == s2.created && Durable(s2).leading == s2.leading && Durable(s2).prepared == s2.prepared;
    ReflagStands(s1, s2, 1, p, {m});
    LiftedServes(s2, 1, p, m);
    hide Serving, Stands, CanStep, UpToDate, Fenced;
    Happen(env, slip, s2, ClientWrite(m, "k", Some("v")));
    s' := DoLocally(env, s2, ClientWrite(m, "k", Some("v")));
    assert map[]["k" := "v"] == DATA && p + {m} == p;
  }

  lemma StillFollowed2(s: Sys, s': Sys, e: Epoch, f: Epoch)
    requires Followed(s, f) && SameLeaders(s, s', e) && e != f
    ensures Followed(s', f) && s'.cycles[f] == s.cycles[f]
  {
  }

  lemma CarriedFields(s: Sys, s': Sys, u: set<Node>, r: set<Node>)
    requires SameLeaders(s, s', 2) && s.cycles.Keys == {1, 2} && s.up <= s.cfg.Keys && r <= u && r != {} && Has(s, 2, r, map[])
    requires Durable(s') == Durable(s).(cfg := Recreated(s.cfg, u, r, 2), up := s.up - u + r)
    ensures Stands(s', 2, r) && s'.cycles.Keys == {1, 2} && s'.cycles[1] == s.cycles[1] && s'.nextEpoch == s.nextEpoch
    ensures s'.created == s.created && s'.queue == s.queue && s'.caches == s.caches && s'.leading == s.leading && s'.acked == s.acked
    ensures s'.clusters[2].kv == map[] && forall n | n in r :: s'.cfg[n].quarantined
  {
    var d := Durable(s');
    assert d.cfg == s'.cfg && d.up == s'.up && d.clusters == s'.clusters && d.created == s'.created && d.queue == s'.queue;
    assert d.caches == s'.caches && d.leading == s'.leading && d.acked == s'.acked;
  }

  // ---------------------------------------------------------------- restores into a standing cluster

  /** A controller with too few peers to create a cluster has asked a member of the standing one for the restore. */
  lemma OrderedInPlace(env: Env, slip: Option<Action>, s: Sys, y: Node, w: set<Node>, t: Token, p: set<Node>, m: Node) returns (s': Sys)
    requires Reached(env, slip, s) && CanLead(env, s, y, w) && Stands(s, t, p) && |p| >= env.Q() && m in p && m in w
    requires s.created && s.caches[y] != [] && !EnoughPeers(|w|, env.memberCount)
    requires s.caches[y] == s.queue || slip == Some(Controller(ChooseRestore(s.nextEpoch)))
    ensures Reached(env, slip, s') && NewCycle(s, s', y, w) && Durable(s') == Durable(s)
    ensures s'.cycles[s.nextEpoch].pc == Copying(t, {}, s.caches[y][0], s.caches[y][0].Keys)
  {
    hide Reached, AllTo, Surveying, Quorate, EnoughPeers;
    SurveyFacts(env, s, y, w, t, p, false);
    var s1 := Gate(env, slip, s, y, w, Some(t), false);
    DurableFields(s, s1);
    var e := s.nextEpoch;
    Go(env, slip, s1, ChooseRestore(e));
    var s2 := DoStep(env, s1, ChooseRestore(e));
    hide CanStep, DoStep;
    StillFollowed(s1, s2, e);
    Ask(env, slip, s2, e, m, BeginCopy);
    s' := DoRequest(s2, e, m, BeginCopy);
    StillFollowed(s2, s', e);
  }

  /** The one key is copied. */
  lemma CopiedKey(env: Env, slip: Option<Action>, s: Sys, e: Epoch, t: Token, p: set<Node>) returns (s': Sys)
    requires Reached(env, slip, s) && Stands(s, t, p) && At(s, e)
    requires s.cycles[e].pc.Copying? && s.cycles[e].pc.target == t && s.cycles[e].pc.source == DATA && s.cycles[e].pc.left == DATA.Keys
    requires Unsuperseded(s, e) || slip == Some(Unfenced(e, Copy("k")))
    ensures Reached(env, slip, s') && SameLeaders(s, s', e) && Stands(s', t, p)
    ensures Durable(s') == Durable(s).(clusters := Filled(s.clusters, t, s.clusters[t].kv["k" := "v"]))
    ensures s'.cycles == s.cycles[e := s.cycles[e].(pc := Copying(t, s.cycles[e].pc.plan, DATA, {}))]
  {
    hide Reached;
    StandsIsQuorate(s, t, p);
    Note(env, slip, s, e, Copy("k"));
    s' := DoWrite(s, e, Copy("k"));
    WrittenStands(s, s', t, p);
    assert DATA.Keys - {"k"} == {};
  }

  /** Node n is open to clients of cluster 2, which has the newer value, as was acknowledged. */
  predicate Reopened(s: Sys, p: set<Node>, n: Node) {
    && Stands(s, 2, p) && n in p && !s.cfg[n].quarantined
    && s.clusters[2].kv == NEWER && s.acked == NEWER
  }

  /** Leader y lifts the quarantine of cluster 2 at n, and a client writes there. */
  lemma ReopenedAndWritten(env: Env, slip: Option<Action>, s: Sys, y: Node, w: set<Node>, p: set<Node>, n: Node) returns (s': Sys)
    requires Reached(env, slip, s) && CanLead(env, s, y, w) && Stands(s, 2, p) && |p| >= env.Q() && n in p && n in w
    requires s.created && s.queue == [] && s.caches[y] == [] && s.cfg[n].quarantined && s.clusters[2].kv == DATA && s.acked == DATA
    ensures Reached(env, slip, s') && Reopened(s', p, n) && s'.cycles == s.cycles && s'.nextEpoch == s.nextEpoch + 1
    ensures s'.created && s'.caches == s.caches && s'.queue == s.queue && s'.leading == s.leading
  {
    hide Reached, CanLead;
    FreshEpoch(env, s, y, w);
    var s1 := LiftCycle(env, slip, s, y, w, 2, p, {n}, n);
    NewCycleEnds(s, s1, y, w);
    var s2 := EndCycle(env, slip, s1, s.nextEpoch);
    DurableFields(s1, s2);
    ReflagStands(s, s2, 2, p, {n});
    LiftedServes(s2, 2, p, n);
    Values();
    hide NewCycle, Stands, Serving;
    Happen(env, slip, s2, ClientWrite(n, "k", Some("w")));
    s' := DoLocally(env, s2, ClientWrite(n, "k", Some("w")));
    WrittenStands(s2, s', 2, p);
  }

  /** A put of the older value at an open cluster. */
  lemma OverwrittenIsWrong(env: Env, slip: Option<Action>, s: Sys, e: Epoch, p: set<Node>, n: Node) returns (s': Sys)
    requires Reached(env, slip, s) && Reopened(s, p, n) && At(s, e)
    requires s.cycles[e].pc.Copying? && s.cycles[e].pc.target == 2 && s.cycles[e].pc.source == DATA && s.cycles[e].pc.left == DATA.Keys
    requires Unsuperseded(s, e) || slip == Some(Unfenced(e, Copy("k")))
    ensures Reached(env, slip, s') && Wrong(s', n)
  {
    hide Reached;
    s' := CopiedKey(env, slip, s, e, 2, p);
    Values();
    var d := Durable(s');
    assert d.cfg == s'.cfg && d.clusters == s'.clusters && d.acked == s'.acked;
    assert NEWER["k" := "v"]["k"] == "v";
    LiftedServes(s', 2, p, n);
  }

  /** Restoring into the standing cluster on a cached queue that still has a restore command that was carried
      out: the older value overwrites what a client has written since. */
  lemma StaleRestoreLosesWrites(env: Env, x: Node, v: set<Node>, p: set<Node>, y: Node, w: set<Node>, n: Node) returns (s: Sys)
    requires Founder(env, x, v, p) && |p| == env.memberCount && Leader(env, y, w) && x != y && n in p && n in w
    requires !EnoughPeers(|w|, env.memberCount)
    ensures Reached(env, Some(Controller(ChooseRestore(5))), s) && Wrong(s, n)
  {
    hide Reached, CanLead, AllTo, Recreated;
    var slip := Some(Controller(ChooseRestore(5)));
    FounderLeads(env, x, v, p);
    LeaderKnown(env, y, w);
    Values();
    var s1 := Queued(env, slip, x, v, p);
    RestFields(env, s1, AllTo(p, Config(1, true)), p, true, [DATA], Empty(env)[x := [DATA]], DATA);
    AllKeys(p, Config(1, true));
    var s2 := Reelected(env, slip, s1, y);
    Leads(env, s2, x, v);
    AllStand(s2, 1, p, DATA, true);
    hide Founder;
    var s3 := RestoreAndRemove(env, slip, s2, x, v, p, 2, 1, p, n);
    RemadeFlag(s2, s3, v, p, 2, DATA, n);
    RemadeKeeps(s2, s3, v, p, 2, DATA);
    assert s3.queue == [] && s3.caches[x] == [] && s3.caches[y] == [DATA];
    s := RestoredLate(env, slip, s3, x, v, p, y, w, n);
  }

  lemma RestoredLate(env: Env, slip: Option<Action>, s3: Sys, x: Node, v: set<Node>, p: set<Node>, y: Node, w: set<Node>, n: Node)
    returns (s: Sys)
    requires slip == Some(Controller(ChooseRestore(5))) && Reached(env, slip, s3) && Leader(env, x, v) && Leader(env, y, w)
    requires Stands(s3, 2, p) && |p| >= env.Q() && n in p && n in v && n in w && !EnoughPeers(|w|, env.memberCount)
    requires s3.nextEpoch == 4 && s3.cycles == map[] && s3.leading == env.nodes && s3.created && s3.queue == []
    requires x in s3.caches && y in s3.caches && s3.caches[x] == [] && s3.caches[y] == [DATA]
    requires s3.cfg[n].quarantined && s3.clusters[2].kv == DATA && s3.acked == DATA
    ensures Reached(env, slip, s) && Wrong(s, n)
  {
    hide Reached, CanLead, Leader, Stands, EnoughPeers;
    Leads(env, s3, x, v);
    var s4 := ReopenedAndWritten(env, slip, s3, x, v, p, n);
    Leads(env, s4, y, w);
    var s5 := OrderedInPlace(env, slip, s4, y, w, 2, p, n);
    DurableFields(s4, s5);
    SameStands(s4, s5, 2, p);
    s := OverwrittenIsWrong(env, slip, s5, 5, p, n);
  }

  // ---------------------------------------------------------------- late copies

  /** Cluster 2 stands empty, and cycle e of x has been told to restore into it, but has not copied yet. */
  predicate Delayed(env: Env, s: Sys, e: Epoch, x: Node, p: set<Node>) {
    && e in s.cycles && s.cycles == map[e := s.cycles[e]] && e < s.nextEpoch && s.cycles[e].owner == x && x in s.caches
    && s.cycles[e].pc.Copying? && s.cycles[e].pc.target == 2 && s.cycles[e].pc.source == DATA && s.cycles[e].pc.left == DATA.Keys
    && Stands(s, 2, p) && |p| >= env.Q() && s.clusters[2].kv == map[] && s.acked == DATA
    && s.created && s.queue == [DATA] && s.leading == env.nodes && forall n | n in p :: s.cfg[n].quarantined
  }

  /** Another leader, with too few peers to create a cluster, restores into it and opens it before the first
      leader's copy goes on. */
  lemma LateCopyLosesWrites(env: Env, slip: Option<Action>, s: Sys, e: Epoch, x: Node, p: set<Node>, y: Node, w: set<Node>, n: Node)
    returns (s': Sys)
    requires slip == Some(Unfenced(e, Copy("k"))) && Reached(env, slip, s) && Delayed(env, s, e, x, p)
    requires Leader(env, y, w) && x != y && n in p && n in w && !EnoughPeers(|w|, env.memberCount)
    requires y in s.caches && s.caches[y] == [DATA]
    ensures Reached(env, slip, s') && Wrong(s', n)
  {
    hide Reached, CanLead, Leader, Stands, EnoughPeers;
    Leads(env, s, y, w);
    var s1 := RestoredInPlace(env, slip, s, e, p, y, w, n);
    Leads(env, s1, y, w);
    var s2 := ReopenedAndWritten(env, slip, s1, y, w, p, n);
    s' := OverwrittenIsWrong(env, slip, s2, e, p, n);
  }

  /** y copies the backup and removes the command. */
  lemma RestoredInPlace(env: Env, slip: Option<Action>, s: Sys, e: Epoch, p: set<Node>, y: Node, w: set<Node>, n: Node)
    returns (s': Sys)
    requires Reached(env, slip, s) && CanLead(env, s, y, w) && Stands(s, 2, p) && |p| >= env.Q() && n in p && n in w
    requires s.created && s.queue == [DATA] && s.caches[y] == [DATA] && !EnoughPeers(|w|, env.memberCount) && s.clusters[2].kv == map[]
    requires e in s.cycles && s.cycles == map[e := s.cycles[e]] && e < s.nextEpoch
    ensures Reached(env, slip, s') && Stands(s', 2, p) && s'.cfg == s.cfg && s'.clusters[2].kv == DATA && s'.acked == s.acked
    ensures s'.cycles == s.cycles && s'.nextEpoch == s.nextEpoch + 1 && s'.created && s'.leading == s.leading
    ensures s'.queue == [] && s'.caches == s.caches[y := []]
  {
    var f := s.nextEpoch;
    FreshEpoch(env, s, y, w);
    hide Reached, CanLead, Stands, EnoughPeers;
    var s1 := OrderedInPlace(env, slip, s, y, w, 2, p, n);
    DurableFields(s, s1);
    SameStands(s, s1, 2, p);
    NewCycleEnds(s, s1, y, w);
    assert At(s1, f) && Unsuperseded(s1, f);
    var s2 := CopiedKey(env, slip, s1, f, 2, p);
    CopiedFields(s1, s2, f);
    StillUnsuperseded(s1, s2, f);
    hide NewCycle, SameLeaders, Followed;
    s' := RemoveFirst(env, slip, s2, f);
    RemadeBy(s, s2, s', f);
    SameStands(s2, s', 2, p);
    assert s2.cycles - {f} == s.cycles;
  }

  lemma CopiedFields(s: Sys, s': Sys, f: Epoch)
    requires 2 in s.clusters && s.clusters[2].kv == map[] && At(s, f) && s.cycles[f].pc.Copying? && s.queue == [DATA]
    requires Durable(s') == Durable(s).(clusters := Filled(s.clusters, 2, s.clusters[2].kv["k" := "v"]))
    requires s'.cycles == s.cycles[f := s.cycles[f].(pc := Copying(2, s.cycles[f].pc.plan, DATA, {}))]
    ensures s'.cfg == s.cfg && s'.up == s.up && s'.created == s.created && s'.leading == s.leading && s'.acked == s.acked
    ensures s'.queue == [DATA] && s'.caches == s.caches && 2 in s'.clusters && s'.clusters[2].kv == DATA && At(s', f)
  {
    var d := Durable(s');
    assert d.cfg == s'.cfg && d.up == s'.up && d.clusters == s'.clusters && d.created == s'.created && d.leading == s'.leading;
    assert d.acked == s'.acked && d.queue == s'.queue && d.caches == s'.caches;
    assert map[]["k" := "v"] == DATA;
  }

  lemma StillUnsuperseded(s: Sys, s': Sys, e: Epoch)
    requires Unsuperseded(s, e) && SameLeaders(s, s', e) && e in s'.cycles && s'.cycles[e].view == s.cycles[e].view
    ensures Unsuperseded(s', e)
  {
  }

  /** Copying late into a cluster that stood before: leader x with few peers asks for the restore at m, and y
      overtakes it. Node m is busy with the copy all the while, but it is no peer of y. */
  lemma SupersededRestoreLosesWrites(env: Env, x: Node, v: set<Node>, p: set<Node>, u: set<Node>, m: Node, y: Node, w: set<Node>, n: Node)
    returns (s: Sys)
    requires Founder(env, x, v, p) && |p| == env.memberCount && Leader(env, x, u) && !EnoughPeers(|u|, env.memberCount)
    requires m in p && m in u && m !in w
    requires Leader(env, y, w) && x != y && n in p && n in w && !EnoughPeers(|w|, env.memberCount)
    ensures Reached(env, Some(Unfenced(4, Copy("k"))), s) && Wrong(s, n)
  {
    hide Reached, CanLead, AllTo, Recreated, EnoughPeers;
    var slip := Some(Unfenced(4, Copy("k")));
    FounderLeads(env, x, v, p);
    LeaderKnown(env, y, w);
    var s1 := Queued(env, slip, x, v, p);
    RestFields(env, s1, AllTo(p, Config(1, true)), p, true, [DATA], Empty(env)[x := [DATA]], DATA);
    AllKeys(p, Config(1, true));
    var s2 := Reelected(env, slip, s1, y);
    Leads(env, s2, x, v);
    var s3 := RecreateAndFail(env, slip, s2, x, v, p, 2);
    forall q | q in p ensures s3.cfg[q].quarantined && Stands(s3, 2, p) && s3.clusters[2].kv == map[] {
      RemadeFlag(s2, s3, v, p, 2, map[], q);
    }
    RemadeKeeps(s2, s3, v, p, 2, map[]);
    hide Remade, Stands, Founder, Leader, Delayed;
    var s4 := InPlaceDelayed(env, slip, s3, x, p, u, m);
    s := LateCopyLosesWrites(env, slip, s4, 4, x, p, y, w, n);
  }

  /** x asks for the restore into cluster 2 and is delayed. */
  lemma InPlaceDelayed(env: Env, slip: Option<Action>, s: Sys, x: Node, p: set<Node>, u: set<Node>, m: Node) returns (s': Sys)
    requires Reached(env, slip, s) && Leader(env, x, u) && !EnoughPeers(|u|, env.memberCount) && m in p && m in u
    requires Stands(s, 2, p) && |p| >= env.Q() && s.clusters[2].kv == map[] && (forall q | q in p :: s.cfg[q].quarantined)
    requires s.cycles == map[] && s.nextEpoch == 4 && s.leading == env.nodes && s.created && s.acked == DATA
    requires s.queue == [DATA] && x in s.caches && s.caches[x] == [DATA]
    ensures Reached(env, slip, s') && Delayed(env, s', 4, x, p) && s'.caches == s.caches
  {
    hide Reached, CanLead, Stands, Leader, EnoughPeers;
    Leads(env, s, x, u);
    s' := OrderedInPlace(env, slip, s, x, u, 2, p, m);
    DurableFields(s, s');
    SameStands(s, s', 2, p);
  }

  /** Copying late into a cluster that the leader created itself: y overtakes it all the same. */
  lemma SupersededCopyLosesWrites(env: Env, x: Node, v: set<Node>, p: set<Node>, m: Node, y: Node, w: set<Node>, n: Node) returns (s: Sys)
    requires Founder(env, x, v, p) && |p| == env.memberCount && m in p && m !in w
    requires Leader(env, y, w) && x != y && n in p && n in w && !EnoughPeers(|w|, env.memberCount)
    ensures Reached(env, Some(Unfenced(3, Copy("k"))), s) && Wrong(s, n)
  {
    hide Reached, CanLead, AllTo, EnoughPeers;
    var slip := Some(Unfenced(3, Copy("k")));
    FounderLeads(env, x, v, p);
    LeaderKnown(env, y, w);
    var s1 := Queued(env, slip, x, v, p);
    RestFields(env, s1, AllTo(p, Config(1, true)), p, true, [DATA], Empty(env)[x := [DATA]], DATA);
    AllKeys(p, Config(1, true));
    var s2 := Reelected(env, slip, s1, y);
    Leads(env, s2, x, v);
    AllStand(s2, 1, p, DATA, true);
    hide Leader, Delayed, Stands;
    var s3 := OwnCopyDelayed(env, slip, s2, x, v, p, m);
    hide Founder;
    s := LateCopyLosesWrites(env, slip, s3, 3, x, p, y, w, n);
  }

  /** x recreates the cluster, asks for the restore, and is delayed. */
  lemma OwnCopyDelayed(env: Env, slip: Option<Action>, s: Sys, x: Node, v: set<Node>, p: set<Node>, n: Node) returns (s': Sys)
    requires Reached(env, slip, s) && CanLead(env, s, x, v) && Founder(env, x, v, p) && s.clusters.Keys == {1} && Stands(s, 1, p) && n in p
    requires s.created && s.queue == [DATA] && s.caches[x] == [DATA] && s.prepared == map[] && s.up <= s.cfg.Keys
    requires s.cycles == map[] && s.nextEpoch == 3 && s.leading == env.nodes && s.acked == DATA
    ensures Reached(env, slip, s') && Delayed(env, s', 3, x, p) && s'.caches == s.caches
  {
    FreshEpoch(env, s, x, v);
    FounderLeads(env, x, v, p);
    hide Reached, CanLead, AllTo, Founder, Leader, Recreated, Stands;
    var s1 := OrderedCycle(env, slip, s, x, v, p, 2, 1, p, n);
    RestoredFields(s, s1, x, v, p);
    NewlyFormed(s, s1, v, p, n);
    hide NewCycle, Followed, CanRequest, Donor, Observes;
    s' := AskedAndDelayed(env, slip, s1, x, p, n);
  }

  lemma AskedAndDelayed(env: Env, slip: Option<Action>, s: Sys, x: Node, p: set<Node>, n: Node) returns (s': Sys)
    requires Reached(env, slip, s) && CanRequest(s, 3, n, BeginCopy) && Stands(s, 2, p) && |p| >= env.Q() && n in p
    requires s.cycles == map[3 := s.cycles[3]] && s.cycles[3].owner == x && s.nextEpoch == 4 && x in s.caches
    requires s.cycles[3].pc == Creating(Forming, Restore(DATA), 2, p, {}) && s.clusters[2].kv == map[]
    requires s.created && s.queue == [DATA] && s.leading == env.nodes && s.acked == DATA && forall q | q in p :: s.cfg[q] == Config(2, true)
    ensures Reached(env, slip, s') && Delayed(env, s', 3, x, p) && s'.caches == s.caches
  {
    hide Reached, CanRequest;
    s' := Ordered(env, slip, s, 3, n);
    DurableFields(s, s');
    SameStands(s, s', 2, p);
  }

  lemma NewlyFormed(s: Sys, s': Sys, v: set<Node>, p: set<Node>, n: Node)
    requires Durable(s') == Durable(s).(cfg := Recreated(s.cfg, v, p, 2), up := s.up - v + p,
                                        clusters := s.clusters[2 := Cluster(p, map[], s.gen, s.nextEpoch)])
    requires Followed(s', 3) && InPhase(s', 3, Forming) && s'.cycles[3].pc.todo == {} && s'.cycles[3].pc.goal.Restore?
    requires Observes(s', 3) && n in s'.cycles[3].fit && n in p && p <= v && s'.cycles[3].view == v
    ensures (forall q | q in p :: q in s'.cfg && s'.cfg[q] == Config(2, true)) && s'.clusters[2].kv == map[]
    ensures CanRequest(s', 3, n, BeginCopy)
  {
    var d := Durable(s');
    assert d.cfg == s'.cfg && d.up == s'.up && d.clusters == s'.clusters;
    assert Fenced(s', 3, n);
  }

  lemma AllKeys<T>(nodes: set<Node>, x: T)
    ensures AllTo(nodes, x).Keys == nodes
  {
  }

  // ---------------------------------------------------------------- instances

  /** Three machines and a cluster of two; three and a cluster of three; five and a cluster of four or five. */
  const TWO: Env := Env({0, 1, 2}, 2)
  const ALL: Env := Env({0, 1, 2}, 3)
  const FOUR: Env := Env({0, 1, 2, 3, 4}, 4)
  const FIVE: Env := Env({0, 1, 2, 3, 4}, 5)

  /** One member is wanted, and there are two machines: enough for two quorums. */
  const SPLIT: Env := Env({0, 1}, 1)

  lemma Pairs()
    ensures TWO.Ok() && Founder(TWO, 0, {0, 1}, {0, 1}) && Founder(TWO, 1, {1, 2}, {1, 2}) && Leader(TWO, 1, {1, 2})
    ensures Founder(TWO, 0, {0, 1, 2}, {1, 2}) && |{0, 1}| == 2 && |{1, 2}| == 2
  {
    assert |{0, 1}| == 2 && |{1, 2}| == 2 && |{0, 1, 2}| == 3;
  }

  lemma Triples()
    ensures ALL.Ok() && Founder(ALL, 0, {0, 1, 2}, {0, 1, 2}) && Founder(ALL, 0, {0, 1}, {0, 1}) && Leader(ALL, 1, {1, 2})
    ensures |{0, 1}| == 2 && |{0, 1, 2}| == 3
  {
    assert |{0, 1}| == 2 && |{1, 2}| == 2 && |{0, 1, 2}| == 3;
  }

  lemma Fours()
    ensures FOUR.Ok() && Founder(FOUR, 1, {1, 2, 3, 4}, {1, 2, 3, 4}) && Leader(FOUR, 2, {2, 3, 4})
    ensures Founder(FOUR, 0, {0, 1, 3, 4}, {0, 1, 3, 4})
  {
    assert |{0, 1, 2, 3, 4}| == 5 && |{1, 2, 3, 4}| == 4 && |{0, 1, 3, 4}| == 4 && |{2, 3, 4}| == 3;
  }

  lemma Fives()
    ensures FIVE.Ok() && Founder(FIVE, 0, {0, 1, 2, 3, 4}, {0, 1, 2, 3, 4}) && |{0, 1, 2, 3, 4}| == 5
    ensures Leader(FIVE, 0, {0, 1, 2}) && !EnoughPeers(|{0, 1, 2}|, 5) && Leader(FIVE, 1, {1, 2, 3}) && !EnoughPeers(|{1, 2, 3}|, 5)
  {
    assert |{0, 1, 2, 3, 4}| == 5 && |{0, 1, 2}| == 3 && |{1, 2, 3}| == 3;
  }

  // ---------------------------------------------------------------- too many machines

  /** With enough machines for two quorums, a partition leaves two clusters that both have one and are both
      open to clients, without any undisciplined step: what is written to the one cannot be read from the
      other. */
  lemma TwoQuorumsTwoClusters() returns (s: Sys)
    ensures Reached(SPLIT, None, s) && Quorate(s, 1) && Quorate(s, 2) && Wrong(s, 1)
  {
    hide Reached, AllTo, Wrong;
    var s1 := BothFormed();
    var s2 := BothOpen(s1);
    s := WrittenToOne(s2);
  }

  /** Each machine has its own cluster, and one of the leaders has marked it. */
  predicate Torn(s: Sys, flag: bool) {
    && Stands(s, 1, {0}) && Stands(s, 2, {1}) && s.cfg == map[0 := Config(1, flag), 1 := Config(2, flag)]
    && s.clusters[1].kv == map[] && s.clusters[2].kv == map[]
    && s.created && s.queue == [] && s.caches == Empty(SPLIT) && s.leading == {0, 1} && s.acked == map[]
  }

  lemma BothFormed() returns (s: Sys)
    ensures Reached(SPLIT, None, s) && Torn(s, true) && s.cycles == map[] && s.nextEpoch == 2
  {
    hide Reached, AllTo;
    assert |{0}| == 1 && |{1}| == 1 && SPLIT.Q() == 1;
    var s1 := ProtocolStories.Formed(SPLIT, None, 0, {0}, {0});
    RestFields(SPLIT, s1, AllTo({0}, Config(1, true)), {0}, false, [], Empty(SPLIT), map[]);
    AllKeys({0}, Config(1, true));
    var s2 := Gate(SPLIT, None, s1, 1, {1}, None, false);
    DurableFields(s1, s2);
    hide CanStep, DoStep;
    MayCreateToo(s1, s2);
    FirstStillLeads(s1, s2);
    hide Surveying;
    s := SecondForms(s2);
  }

  lemma FirstStillLeads(s: Sys, s': Sys)
    requires Followed(s, 0) && s.cycles[0].view == {0} && s'.acc == s.acc + AllTo({1}, 1) && 0 in s'.cycles && s'.cycles[0] == s.cycles[0]
    ensures Unsuperseded(s', 0)
  {
    assert Fenced(s, 0, 0);
  }

  /** The second leader creates a cluster of its own. */
  lemma SecondForms(s: Sys) returns (s': Sys)
    requires Reached(SPLIT, None, s) && Followed(s, 1) && CanStep(SPLIT, s, ChooseCreate(1, 2, {1})) && s.cycles.Keys == {0, 1}
    requires s.cycles[1].view == {1} && s.cycles[1].idle == {1} - s.cfg.Keys && s.nextEpoch == 2
    requires Unsuperseded(s, 0) && s.cycles[0].owner == 0 && s.cycles[0].pc == Creating(Forming, Fresh, 1, {0}, {})
    requires s.cfg == AllTo({0}, Config(1, true)) && s.up == {0} && s.clusters.Keys == {1} && Has(s, 1, {0}, map[])
    requires !s.created && s.queue == [] && s.caches == Empty(SPLIT) && s.leading == {0, 1} && s.acked == map[] && s.prepared == map[]
    ensures Reached(SPLIT, None, s') && Torn(s', true) && s'.cycles == map[] && s'.nextEpoch == 2
  {
    hide Reached, AllTo, CanStep, Followed;
    AllKeys({0}, Config(1, true));
    var s1 := Create(SPLIT, None, s, 1, 2, {1});
    BothStand(s, s1);
    hide Recreated, Stands;
    assert Unsuperseded(s1, 0) && s1.cycles[0] == s.cycles[0];
    s' := MarkedByFirst(s1);
  }

  /** The first leader marks the cluster as created, and both cycles are over. */
  lemma MarkedByFirst(s: Sys) returns (s': Sys)
    requires Reached(SPLIT, None, s) && s.cycles.Keys == {0, 1} && Unsuperseded(s, 0) && s.cycles[0].owner == 0 && s.nextEpoch == 2
    requires s.cycles[0].pc.Creating? && s.cycles[0].pc.phase == Forming && s.cycles[0].pc.todo == {} && s.cycles[0].pc.goal == Fresh
    requires Torn(s.(created := true), true)
    ensures Reached(SPLIT, None, s') && Torn(s', true) && s'.cycles == map[] && s'.nextEpoch == 2
  {
    hide Reached;
    Note(SPLIT, None, s, 0, Mark);
    var s1 := DoWrite(s, 0, Mark);
    s' := EndCycle(SPLIT, None, s1, 1);
    DurableFields(s1, s');
  }

  /** Each leader finds its own cluster in quarantine and opens it. */
  lemma BothOpen(s: Sys) returns (s': Sys)
    requires Reached(SPLIT, None, s) && Torn(s, true) && s.cycles == map[] && s.nextEpoch == 2
    ensures Reached(SPLIT, None, s') && Torn(s', false)
  {
    hide Reached;
    assert |{0}| == 1 && |{1}| == 1 && SPLIT.Q() == 1;
    var s1 := LiftCycle(SPLIT, None, s, 0, {0}, 1, {0}, {0}, 0);
    NewCycleEnds(s, s1, 0, {0});
    var s2 := EndCycle(SPLIT, None, s1, 2);
    DurableFields(s1, s2);
    HalfOpen(s, s2);
    hide Torn, NewCycle;
    s' := SecondOpens(s, s2);
  }

  lemma HalfOpen(s: Sys, s': Sys)
    requires Torn(s, true) && s'.cfg == Reflag(s.cfg, {0}, false) && s'.up == s.up + {0} && s'.clusters == s.clusters
    ensures s'.cfg == map[0 := Config(1, false), 1 := Config(2, true)] && Stands(s', 1, {0}) && Stands(s', 2, {1})
  {
  }

  lemma SecondOpens(s: Sys, s2: Sys) returns (s': Sys)
    requires Torn(s, true) && Reached(SPLIT, None, s2) && s2.cycles == map[] && Stands(s2, 1, {0}) && Stands(s2, 2, {1})
    requires s2.cfg == map[0 := Config(1, false), 1 := Config(2, true)] && s2.clusters == s.clusters && s2.created == s.created
    requires s2.queue == s.queue && s2.caches == s.caches && s2.leading == s.leading && s2.acked == s.acked
    ensures Reached(SPLIT, None, s') && Torn(s', false)
  {
    hide Reached;
    assert |{1}| == 1 && SPLIT.Q() == 1;
    s' := LiftCycle(SPLIT, None, s2, 1, {1}, 2, {1}, {1}, 1);
    hide NewCycle;
    var d := Durable(s');
    assert d.cfg == s'.cfg && d.up == s'.up && d.clusters == s'.clusters && d.created == s'.created && d.queue == s'.queue;
    assert d.caches == s'.caches && d.leading == s'.leading && d.acked == s'.acked;
  }

  lemma WrittenToOne(s: Sys) returns (s': Sys)
    requires Reached(SPLIT, None, s) && Torn(s, false)
    ensures Reached(SPLIT, None, s') && Quorate(s', 1) && Quorate(s', 2) && Wrong(s', 1)
  {
    hide Reached;
    LiftedServes(s, 1, {0}, 0);
    hide Serving, Quorate;
    Happen(SPLIT, None, s, ClientWrite(0, "k", Some("v")));
    s' := DoLocally(SPLIT, s, ClientWrite(0, "k", Some("v")));
    WrittenStands(s, s', 1, {0});
    WrittenStands(s, s', 2, {1});
    StandsIsQuorate(s', 1, {0});
    StandsIsQuorate(s', 2, {1});
    LiftedServes(s', 2, {1}, 1);
    assert "k" in s'.acked && "k" !in s'.clusters[2].kv;
  }

  lemma MayCreateToo(s1: Sys, s2: Sys)
    requires s1.cfg.Keys == {0} && s1.caches == Empty(SPLIT) && s1.clusters.Keys == {1} && !s1.created
    requires s2.cfg == s1.cfg && s2.clusters == s1.clusters && s2.caches == s1.caches && s2.created == s1.created
    requires s2.cycles == s1.cycles[1 := Surveying(SPLIT, s1, Undecided(1, {1}, Asserting({})), None, false)]
    ensures CanStep(SPLIT, s2, ChooseCreate(1, 2, {1})) && s2.cycles[1].view == {1} && s2.cycles[1].idle == {1} - s2.cfg.Keys
  {
    assert |{1}| == 1;
  }

  lemma BothStand(s: Sys, s': Sys)
    requires s.cfg == AllTo({0}, Config(1, true)) && s.up == {0} && s.clusters.Keys == {1} && Has(s, 1, {0}, map[])
    requires Durable(s') == Durable(s).(cfg := Recreated(s.cfg, {1}, {1}, 2), up := s.up - {1} + {1},
                                        clusters := s.clusters[2 := Cluster({1}, map[], s.gen, 1)])
    ensures Stands(s', 1, {0}) && Stands(s', 2, {1}) && s'.cfg == map[0 := Config(1, true), 1 := Config(2, true)]
    ensures s'.clusters[1].kv == map[] && s'.clusters[2].kv == map[]
    ensures s'.queue == s.queue && s'.caches == s.caches && s'.leading == s.leading && s'.acked == s.acked
  {
    var d := Durable(s');
    assert d.cfg == s'.cfg && d.up == s'.up && d.clusters == s'.clusters;
    assert d.queue == s'.queue && d.caches == s'.caches && d.leading == s'.leading && d.acked == s'.acked;
  }

  // ---------------------------------------------------------------- all together

  /** No hypothesis of the main theorem can be dropped, and the others do not make up for it: for each there is
      a run that breaks it in one step, or has too many machines, and a client that reads something else than
      what was acknowledged. */
  lemma EveryHypothesisIsNeeded()
    ensures TWO.Ok() && ALL.Ok() && FOUR.Ok() && FIVE.Ok() && !SPLIT.Ok()
    ensures exists s :: Reached(TWO, Some(Controller(ChooseLift(4))), s) && Wrong(s, 1)
    ensures exists s :: Reached(TWO, Some(Controller(ChooseCreate(4, 3, {1, 2}))), s) && Wrong(s, 1)
    ensures exists s :: Reached(TWO, Some(Controller(ChooseUpgrade(4))), s) && Wrong(s, 1)
    ensures exists s :: Reached(ALL, Some(Controller(ChooseExpand(4, 2))), s) && Wrong(s, 2)
    ensures exists s :: Reached(FIVE, Some(Controller(ChooseRestore(5))), s) && Wrong(s, 1)
    ensures exists s :: Reached(TWO, Some(Unfenced(2, AddCommand)), s) && Wrong(s, 1)
    ensures exists s :: Reached(TWO, Some(Unfenced(3, RemoveCommand)), s) && Wrong(s, 1)
    ensures exists s :: Reached(FOUR, Some(Unfenced(0, Mark)), s) && Wrong(s, 0)
    ensures exists s :: Reached(FIVE, Some(Unfenced(4, Copy("k"))), s) && Wrong(s, 1)
    ensures exists s :: Reached(FIVE, Some(Unfenced(3, Copy("k"))), s) && Wrong(s, 1)
    ensures exists s :: Reached(SPLIT, None, s) && Wrong(s, 1)
  {
    hide Reached, Wrong, Founder, Leader, EnoughPeers;
    StaleRuns();
    SupersededRuns();
    CopyRuns();
    var split := TwoQuorumsTwoClusters();
    assert |{0, 1}| == 2;
  }

  lemma StaleRuns()
    ensures TWO.Ok() && ALL.Ok()
    ensures exists s :: Reached(TWO, Some(Controller(ChooseLift(4))), s) && Wrong(s, 1)
    ensures exists s :: Reached(TWO, Some(Controller(ChooseCreate(4, 3, {1, 2}))), s) && Wrong(s, 1)
    ensures exists s :: Reached(TWO, Some(Controller(ChooseUpgrade(4))), s) && Wrong(s, 1)
    ensures exists s :: Reached(ALL, Some(Controller(ChooseExpand(4, 2))), s) && Wrong(s, 2)
  {
    hide Reached, Wrong, Founder, Leader;
    Pairs();
    Triples();
    var lift := StaleLiftLosesWrites(TWO, 0, {0, 1}, {0, 1}, 1, {1, 2}, 1);
    var create := StaleCreateLosesWrites(TWO, 0, {0, 1}, {0, 1}, 1, {1, 2}, {1, 2}, 1);
    var upgrade := StaleUpgradeLosesWrites(TWO, 1, {1, 2}, {1, 2}, 0, {0, 1, 2}, 1);
    var expand := StaleExpandLosesWrites(ALL, 0, {0, 1, 2}, {0, 1, 2}, {0, 1}, {0, 1}, 1, {1, 2}, 2);
  }

  lemma SupersededRuns()
    ensures FOUR.Ok()
    ensures exists s :: Reached(TWO, Some(Unfenced(2, AddCommand)), s) && Wrong(s, 1)
    ensures exists s :: Reached(TWO, Some(Unfenced(3, RemoveCommand)), s) && Wrong(s, 1)
    ensures exists s :: Reached(FOUR, Some(Unfenced(0, Mark)), s) && Wrong(s, 0)
  {
    hide Reached, Wrong, Founder, Leader;
    Pairs();
    Fours();
    var add := SupersededAddLosesWrites(TWO, 0, {0, 1}, {0, 1}, 1, {1, 2}, 1);
    var remove := SupersededRemoveLosesWrites(TWO, 0, {0, 1}, {0, 1}, 1, {1, 2}, {1, 2}, 1);
    var mark := SupersededMarkLosesWrites(FOUR, 1, {1, 2, 3, 4}, {1, 2, 3, 4}, 2, {2, 3, 4}, 2, 0, {0, 1, 3, 4}, {0, 1, 3, 4}, 0);
  }

  lemma CopyRuns()
    ensures FIVE.Ok()
    ensures exists s :: Reached(FIVE, Some(Controller(ChooseRestore(5))), s) && Wrong(s, 1)
    ensures exists s :: Reached(FIVE, Some(Unfenced(4, Copy("k"))), s) && Wrong(s, 1)
    ensures exists s :: Reached(FIVE, Some(Unfenced(3, Copy("k"))), s) && Wrong(s, 1)
  {
    hide Reached, Wrong, Founder, Leader, EnoughPeers;
    Fives();
    var restore := StaleRestoreLosesWrites(FIVE, 0, {0, 1, 2, 3, 4}, {0, 1, 2, 3, 4}, 1, {1, 2, 3}, 1);
    var late := SupersededRestoreLosesWrites(FIVE, 0, {0, 1, 2, 3, 4}, {0, 1, 2, 3, 4}, {0, 1, 2}, 0, 1, {1, 2, 3}, 1);
    var own := SupersededCopyLosesWrites(FIVE, 0, {0, 1, 2, 3, 4}, {0, 1, 2, 3, 4}, 0, 1, {1, 2, 3}, 1);
  }
}
