/** Building runs of the protocol: what a controller gets done in a cycle that nobody disturbs. */
module ProtocolRuns {
  import opened Options
  import opened Sets
  import opened Quorum
  import opened Protocol

  /** s ends some run in which every step is disciplined, except possibly `slip`. */
  ghost predicate Reached(env: Env, slip: Option<Action>, s: Sys) {
    exists states, actions :: Run(env, states, actions) && states[|actions|] == s && Slips(env, slip, states, actions)
  }

  ghost predicate Slips(env: Env, slip: Option<Action>, states: seq<Sys>, actions: seq<Action>)
    requires |states| == |actions| + 1
  {
    forall i | 0 <= i < |actions| :: Allowed(env, slip, states[i], actions[i])
  }

  predicate Allowed(env: Env, slip: Option<Action>, s: Sys, a: Action) {
    Disciplined(env, s, a) || slip == Some(a)
  }

  lemma Extend(env: Env, slip: Option<Action>, s: Sys, a: Action)
    requires Reached(env, slip, s) && Guard(env, s, a) && Allowed(env, slip, s, a)
    ensures Reached(env, slip, Apply(env, s, a))
  {
    hide Guard, Apply, Allowed;
    var states, actions :| Run(env, states, actions) && states[|actions|] == s && Slips(env, slip, states, actions);
    var states', actions' := states + [Apply(env, s, a)], actions + [a];
    assert Run(env, states', actions') && states'[|actions'|] == Apply(env, s, a) && Slips(env, slip, states', actions');
  }

  lemma Go(env: Env, slip: Option<Action>, s: Sys, a: CycleAction)
    requires Reached(env, slip, s) && CanStep(env, s, a) && (DisciplinedStep(s, a) || slip == Some(Controller(a)))
    ensures Reached(env, slip, DoStep(env, s, a))
  {
    hide Reached, CanStep, DoStep, DisciplinedStep;
    Extend(env, slip, s, Controller(a));
  }

  lemma Ask(env: Env, slip: Option<Action>, s: Sys, e: Epoch, n: Node, r: Request)
    requires Reached(env, slip, s) && CanRequest(s, e, n, r)
    ensures Reached(env, slip, DoRequest(s, e, n, r))
  {
    hide Reached, CanRequest, DoRequest;
    Extend(env, slip, s, Rpc(e, n, r));
  }

  lemma Note(env: Env, slip: Option<Action>, s: Sys, e: Epoch, w: Write)
    requires Reached(env, slip, s) && CanWrite(s, e, w)
    requires w.AddMember? || Unsuperseded(s, e) || slip == Some(Unfenced(e, w))
    ensures Reached(env, slip, DoWrite(s, e, w))
  {
    hide Reached, CanWrite, DoWrite, Unsuperseded;
    Extend(env, slip, s, Unfenced(e, w));
  }

  lemma Happen(env: Env, slip: Option<Action>, s: Sys, a: LocalAction)
    requires Reached(env, slip, s) && CanLocally(env, s, a)
    ensures Reached(env, slip, DoLocally(env, s, a))
  {
    hide Reached, CanLocally, DoLocally;
    Extend(env, slip, s, Locally(a));
  }

  lemma Begin(env: Env, slip: Option<Action>)
    ensures Reached(env, slip, Initial(env))
  {
    var states, actions: seq<Action> := [Initial(env)], [];
    assert Run(env, states, actions) && states[|actions|] == Initial(env) && Slips(env, slip, states, actions);
  }

  // ---------------------------------------------------------------- views of a state

  /** What is left of a state without the progress of leaders and without the history. */
  function Durable(s: Sys): Sys {
    s.(acc := map[], listening := {}, cycles := map[], nextEpoch := 0, cur := 0, gen := 0, zone := {})
  }

  /** The fence and the other cycles are as before. */
  predicate SameLeaders(s: Sys, s': Sys, e: Epoch) {
    && s'.acc == s.acc && s'.listening == s.listening && s'.nextEpoch == s.nextEpoch && s'.gen == s.gen
    && e in s.cycles && s'.cycles == s.cycles[e := if e in s'.cycles then s'.cycles[e] else s.cycles[e]]
  }

  lemma Then(s: Sys, s1: Sys, s': Sys, e: Epoch, c: Cycle)
    requires SameLeaders(s, s1, e) && SameLeaders(s1, s', e)
    requires s1.cycles == s.cycles[e := s1.cycles[e]] && s'.cycles == s1.cycles[e := c]
    ensures SameLeaders(s, s', e) && s'.cycles == s.cycles[e := c]
  {
  }

  /** All peers of e obey it. */
  predicate Followed(s: Sys, e: Epoch) {
    e in s.cycles && forall n | n in s.cycles[e].view :: Fenced(s, e, n)
  }

  /** All machines of the cluster's plan run it. */
  predicate Stands(s: Sys, t: Token, plan: set<Node>) {
    && t in s.clusters && s.clusters[t].members == plan && plan != {}
    && forall n | n in plan :: n in s.cfg && s.cfg[n].token == t && n in s.up
  }

  lemma StandsIsQuorate(s: Sys, t: Token, plan: set<Node>)
    requires Stands(s, t, plan)
    ensures Quorate(s, t) && forall n | n in plan :: Healthy(s, n)
  {
    assert Running(s, t) == plan;
    var n := Any(plan);
    SubsetSize({n}, plan);
  }

  lemma StandsIsReady(env: Env, s: Sys, t: Token, plan: set<Node>)
    requires Stands(s, t, plan) && |plan| >= env.Q()
    ensures Ready(env, s, Some(t))
  {
    StandsIsQuorate(s, t, plan);
    assert (set n | n in plan && Healthy(s, n)) == plan;
  }

  function AllTo<T>(nodes: set<Node>, x: T): map<Node, T> {
    map n | n in nodes :: x
  }

  lemma AllToStep<T>(m: map<Node, T>, nodes: set<Node>, n: Node, x: T)
    requires n in nodes
    ensures m[n := x] + AllTo(nodes - {n}, x) == m + AllTo(nodes, x)
  {
  }

  lemma AllToNone<T>(m: map<Node, T>, x: T)
    ensures m + AllTo({}, x) == m && AllTo<T>({}, x) == map[]
  {
  }

  lemma OnlyAllTo<T>(m: map<Node, T>, nodes: set<Node>, x: T)
    requires m == map[]
    ensures m + AllTo(nodes, x) == AllTo(nodes, x)
  {
  }

  lemma AllToMinus<T>(nodes: set<Node>, n: Node, x: T)
    requires n in nodes
    ensures AllTo(nodes, x) - {n} == AllTo(nodes - {n}, x) && n in AllTo(nodes, x) && AllTo(nodes, x)[n] == x
  {
  }

  // ---------------------------------------------------------------- the gate

  function Undecided(owner: Node, view: set<Node>, pc: Pc): Cycle {
    Cycle(owner, view, None, false, false, false, {}, {}, {}, 0, pc)
  }

  function Asserted(s: Sys, e: Epoch, todo: set<Node>): Sys
    requires e in s.cycles
  {
    WithPc(s, e, Asserting({})).(acc := s.acc + AllTo(todo, e), listening := s.listening + todo)
  }

  lemma {:induction false} AssertAll(env: Env, slip: Option<Action>, s: Sys, e: Epoch, todo: set<Node>)
    requires Reached(env, slip, s) && e in s.cycles && s.cycles[e].pc == Asserting(todo)
    ensures Reached(env, slip, Asserted(s, e, todo))
    decreases todo
  {
    hide Reached, AllTo;
    if todo == {} {
      AllToNone(s.acc, e);
      assert s.cycles[e := s.cycles[e]] == s.cycles && s.listening + todo == s.listening;
    } else {
      var n := Any(todo);
      Go(env, slip, s, Assert(e, n));
      var s1 := DoStep(env, s, Assert(e, n));
      AssertAll(env, slip, s1, e, todo - {n});
      AllToStep(s.acc, todo, n, e);
      assert s.listening + {n} + (todo - {n}) == s.listening + todo;
      assert WithPc(s1, e, Asserting({})).cycles == WithPc(s, e, Asserting({})).cycles;
    }
  }

  /** A controller asks all peers of its view for their acceptance and looks at the cluster `obs`. */
  lemma Gate(env: Env, slip: Option<Action>, s: Sys, owner: Node, view: set<Node>, obs: Option<Token>, mismatch: bool)
    returns (s': Sys)
    requires Reached(env, slip, s) && CanStep(env, s, Start(owner, view)) && s.nextEpoch !in s.cycles
    requires |view| >= env.Q() && (obs.Some? ==> Quorate(s, obs.value))
    ensures Reached(env, slip, s') && Durable(s') == Durable(s) && s'.nextEpoch == s.nextEpoch + 1 && s'.gen == s.gen
    ensures s'.acc == s.acc + AllTo(view, s.nextEpoch)
    ensures s'.listening == s.listening + view
    ensures s'.cycles == s.cycles[s.nextEpoch := Surveying(env, s, Undecided(owner, view, Asserting({})), obs, mismatch)]
    ensures Followed(s', s.nextEpoch)
  {
    hide Reached, Surveying, Quorate, AllTo;
    var e := s.nextEpoch;
    Go(env, slip, s, Start(owner, view));
    var s1 := DoStep(env, s, Start(owner, view));
    AssertAll(env, slip, s1, e, view);
    var s2 := Asserted(s1, e, view);
    assert s2.cycles == s.cycles[e := Undecided(owner, view, Asserting({}))] && Durable(s2) == Durable(s);
    hide CanStep, DoStep, DisciplinedStep;
    LastOfGate(env, s, s2, e, owner, view, obs, mismatch);
    Go(env, slip, s2, Survey(e, obs, mismatch));
    s' := DoStep(env, s2, Survey(e, obs, mismatch));
  }

  lemma LastOfGate(env: Env, s: Sys, s2: Sys, e: Epoch, owner: Node, view: set<Node>, obs: Option<Token>, mismatch: bool)
    requires Durable(s2) == Durable(s) && |view| >= env.Q() && (obs.Some? ==> Quorate(s, obs.value))
    requires s2.cycles == s.cycles[e := Undecided(owner, view, Asserting({}))]
    requires s2.acc == s.acc + AllTo(view, e) && s2.listening == s.listening + view
    ensures CanStep(env, s2, Survey(e, obs, mismatch)) && DisciplinedStep(s2, Survey(e, obs, mismatch))
    ensures var s' := DoStep(env, s2, Survey(e, obs, mismatch));
            && Durable(s') == Durable(s) && s'.nextEpoch == s2.nextEpoch && s'.gen == s2.gen
            && s'.acc == s2.acc && s'.listening == s2.listening && Followed(s', e)
            && s'.cycles == s.cycles[e := Surveying(env, s, Undecided(owner, view, Asserting({})), obs, mismatch)]
  {
    hide Surveying, Quorate;
    if obs.Some? { SameQuorum(s, s2, obs.value); }
    SameSurvey(env, s, s2, Undecided(owner, view, Asserting({})), obs, mismatch);
    SurveyKeeps(env, s, Undecided(owner, view, Asserting({})), obs, mismatch);
    hide AllTo, Followed;
    AllFollow(DoStep(env, s2, Survey(e, obs, mismatch)), e, view, s.acc, s.listening);
  }

  lemma AllFollow(s: Sys, e: Epoch, view: set<Node>, acc: map<Node, Epoch>, listening: set<Node>)
    requires e in s.cycles && s.cycles[e].view == view && s.acc == acc + AllTo(view, e) && s.listening == listening + view
    ensures Followed(s, e)
  {
    assert forall n | n in view :: n in s.acc && s.acc[n] == e && n in s.listening;
  }

  lemma SurveyKeeps(env: Env, s: Sys, c: Cycle, obs: Option<Token>, mismatch: bool)
    ensures var d := Surveying(env, s, c, obs, mismatch); d.view == c.view && d.owner == c.owner && d.pc == Surveyed
  {
  }

  lemma SameQuorum(s: Sys, s': Sys, t: Token)
    requires Durable(s) == Durable(s')
    ensures Quorate(s', t) == Quorate(s, t)
  {
    SameHealth(s, s');
  }

  lemma SameHealth(s: Sys, s': Sys)
    requires Durable(s) == Durable(s')
    ensures s'.cfg == s.cfg && s'.up == s.up && s'.clusters == s.clusters
    ensures forall t :: Quorate(s', t) == Quorate(s, t)
    ensures forall n :: Healthy(s', n) == Healthy(s, n)
  {
    assert Durable(s).cfg == s.cfg && Durable(s).up == s.up && Durable(s).clusters == s.clusters;
    assert Durable(s').cfg == s'.cfg && Durable(s').up == s'.up && Durable(s').clusters == s'.clusters;
    forall t ensures Quorate(s', t) == Quorate(s, t) {
      if t in s.clusters { assert Running(s', t) == Running(s, t); }
    }
  }

  lemma SameSurvey(env: Env, s: Sys, s': Sys, c: Cycle, obs: Option<Token>, mismatch: bool)
    requires Durable(s) == Durable(s')
    ensures Surveying(env, s', c, obs, mismatch) == Surveying(env, s, c, obs, mismatch)
  {
    SameHealth(s, s');
    hide Quorate, Healthy;
    if obs.Some? && obs.value in s.clusters {
      assert (set n | n in s.clusters[obs.value].members && Healthy(s', n)) ==
             (set n | n in s.clusters[obs.value].members && Healthy(s, n));
    }
  }

  // ---------------------------------------------------------------- creating a cluster

  function Stage(s: Sys, e: Epoch, phase: Phase, todo: set<Node>): Pc
    requires e in s.cycles && s.cycles[e].pc.Creating?
  {
    var pc := s.cycles[e].pc;
    Creating(phase, pc.goal, pc.token, pc.plan, todo)
  }

  lemma {:induction false} ClearAll(env: Env, slip: Option<Action>, s: Sys, e: Epoch, todo: set<Node>)
    requires Reached(env, slip, s) && Followed(s, e) && InPhase(s, e, Clearing) && s.cycles[e].pc.todo == todo
    requires todo <= s.cfg.Keys && todo <= s.cycles[e].view
    ensures Reached(env, slip, WithPc(s.(cfg := s.cfg - todo, up := s.up - todo), e, Stage(s, e, Clearing, {})))
    decreases todo
  {
    hide Reached;
    if todo == {} {
      assert s.cfg - todo == s.cfg && s.up - todo == s.up && s.cycles[e := s.cycles[e]] == s.cycles;
    } else {
      var n := Any(todo);
      Ask(env, slip, s, e, n, Clear);
      var s1 := DoRequest(s, e, n, Clear);
      ClearAll(env, slip, s1, e, todo - {n});
      assert s.cfg - {n} - (todo - {n}) == s.cfg - todo && s.up - {n} - (todo - {n}) == s.up - todo;
      assert WithPc(s1, e, Stage(s, e, Clearing, {})).cycles == WithPc(s, e, Stage(s, e, Clearing, {})).cycles;
    }
  }

  /** Another state with the same fence, at the same place. */
  lemma StillFollowed(s: Sys, s': Sys, e: Epoch)
    requires Followed(s, e) && SameLeaders(s, s', e) && e in s'.cycles && s'.cycles[e].view == s.cycles[e].view
    ensures Followed(s', e)
  {
  }

  lemma PrepareOne(s: Sys, e: Epoch, n: Node)
    requires Fenced(s, e, n) && InPhase(s, e, Preparing) && n in s.cycles[e].pc.todo && n !in s.up && n !in s.prepared
    ensures CanRequest(s, e, n, Prepare)
    ensures var pc := s.cycles[e].pc;
            DoRequest(s, e, n, Prepare) ==
            WithPc(s.(prepared := s.prepared[n := pc.token]), e, Stage(s, e, Preparing, pc.todo - {n}))
  {
  }

  lemma CommitOne(s: Sys, e: Epoch, n: Node)
    requires Fenced(s, e, n) && InPhase(s, e, Forming) && n in s.cycles[e].pc.todo && n !in s.up
    requires n in s.prepared && s.prepared[n] == s.cycles[e].pc.token
    ensures CanRequest(s, e, n, Commit)
    ensures var pc := s.cycles[e].pc;
            DoRequest(s, e, n, Commit) ==
            WithPc(s.(cfg := s.cfg[n := Config(pc.token, true)], up := s.up + {n}, prepared := s.prepared - {n}), e,
                   Stage(s, e, Forming, pc.todo - {n}))
  {
  }

  /** s after e has prepared `todo`. */
  function PreparedAll(s: Sys, e: Epoch, todo: set<Node>): Sys
    requires e in s.cycles && s.cycles[e].pc.Creating?
  {
    WithPc(s.(prepared := s.prepared + AllTo(todo, s.cycles[e].pc.token)), e, Stage(s, e, Preparing, {}))
  }

  lemma PreparedMore(s: Sys, e: Epoch, n: Node, todo: set<Node>)
    requires e in s.cycles && s.cycles[e].pc.Creating? && n in todo
    ensures var pc := s.cycles[e].pc;
            PreparedAll(WithPc(s.(prepared := s.prepared[n := pc.token]), e, Stage(s, e, Preparing, todo - {n})), e, todo - {n})
            == PreparedAll(s, e, todo)
  {
    AllToStep(s.prepared, todo, n, s.cycles[e].pc.token);
  }

  lemma {:induction false} PrepareAll(env: Env, slip: Option<Action>, s: Sys, e: Epoch, todo: set<Node>)
    requires Reached(env, slip, s) && Followed(s, e) && InPhase(s, e, Preparing) && s.cycles[e].pc.todo == todo
    requires (forall n | n in todo :: n !in s.up && n !in s.prepared) && todo <= s.cycles[e].view
    ensures Reached(env, slip, PreparedAll(s, e, todo))
    decreases todo
  {
    hide Reached, AllTo, CanRequest, DoRequest, PreparedAll;
    if todo == {} {
      PreparedNone(s, e);
    } else {
      var n := Any(todo);
      PrepareOne(s, e, n);
      Ask(env, slip, s, e, n, Prepare);
      PreparedMore(s, e, n, todo);
      PrepareAll(env, slip, DoRequest(s, e, n, Prepare), e, todo - {n});
    }
  }

  lemma PreparedNone(s: Sys, e: Epoch)
    requires InPhase(s, e, Preparing) && s.cycles[e].pc.todo == {}
    ensures PreparedAll(s, e, {}) == s
  {
    AllToNone(s.prepared, s.cycles[e].pc.token);
    assert s.cycles[e := s.cycles[e]] == s.cycles;
  }

  /** s after e has committed `todo`. */
  function CommittedAll(s: Sys, e: Epoch, todo: set<Node>): Sys
    requires e in s.cycles && s.cycles[e].pc.Creating?
  {
    WithPc(s.(cfg := s.cfg + AllTo(todo, Config(s.cycles[e].pc.token, true)), up := s.up + todo, prepared := map[]), e,
           Stage(s, e, Forming, {}))
  }

  lemma CommittedMore(s: Sys, e: Epoch, n: Node, todo: set<Node>)
    requires e in s.cycles && s.cycles[e].pc.Creating? && n in todo
    ensures var pc := s.cycles[e].pc;
            CommittedAll(WithPc(s.(cfg := s.cfg[n := Config(pc.token, true)], up := s.up + {n}, prepared := s.prepared - {n}), e,
                                Stage(s, e, Forming, todo - {n})), e, todo - {n})
            == CommittedAll(s, e, todo)
  {
    AllToStep(s.cfg, todo, n, Config(s.cycles[e].pc.token, true));
    assert s.up + {n} + (todo - {n}) == s.up + todo;
  }

  lemma CommittedNone(s: Sys, e: Epoch)
    requires InPhase(s, e, Forming) && s.cycles[e].pc.todo == {} && s.prepared == map[]
    ensures CommittedAll(s, e, {}) == s
  {
    AllToNone(s.cfg, Config(s.cycles[e].pc.token, true));
    assert s.cycles[e := s.cycles[e]] == s.cycles && s.up + {} == s.up;
  }

  lemma {:induction false} CommitAll(env: Env, slip: Option<Action>, s: Sys, e: Epoch, todo: set<Node>)
    requires Reached(env, slip, s) && Followed(s, e) && InPhase(s, e, Forming) && s.cycles[e].pc.todo == todo
    requires (forall n | n in todo :: n !in s.up) && s.prepared == AllTo(todo, s.cycles[e].pc.token) && todo <= s.cycles[e].view
    ensures Reached(env, slip, CommittedAll(s, e, todo))
    decreases todo
  {
    hide Reached, AllTo, CanRequest, DoRequest, CommittedAll;
    var t := s.cycles[e].pc.token;
    if todo == {} {
      AllToNone(s.prepared, t);
      CommittedNone(s, e);
    } else {
      var n := Any(todo);
      AllToMinus(todo, n, t);
      CommitOne(s, e, n);
      Ask(env, slip, s, e, n, Commit);
      CommittedMore(s, e, n, todo);
      CommitAll(env, slip, DoRequest(s, e, n, Commit), e, todo - {n});
    }
  }

  function Recreated(cfg: map<Node, Config>, view: set<Node>, plan: set<Node>, t: Token): map<Node, Config> {
    (cfg - view) + AllTo(plan, Config(t, true))
  }

  /** A cycle recreates the cluster: it stops its configured peers and starts the plan, in quarantine. */
  lemma Create(env: Env, slip: Option<Action>, s: Sys, e: Epoch, t: Token, plan: set<Node>) returns (s': Sys)
    requires Reached(env, slip, s) && Followed(s, e) && CanStep(env, s, ChooseCreate(e, t, plan))
    requires (s.created ==> UpToDate(s, e)) || slip == Some(Controller(ChooseCreate(e, t, plan)))
    requires s.cycles[e].idle == s.cycles[e].view - s.cfg.Keys && s.prepared == map[] && s.up <= s.cfg.Keys
    ensures Reached(env, slip, s') && SameLeaders(s, s', e) && Followed(s', e)
    ensures Durable(s') == Durable(s).(cfg := Recreated(s.cfg, s.cycles[e].view, plan, t),
                                       up := s.up - s.cycles[e].view + plan,
                                       clusters := s.clusters[t := Cluster(plan, map[], s.gen, e)])
    ensures s'.cycles == s.cycles[e := s.cycles[e].(pc := Creating(Forming, GoalOf(s, e), t, plan, {}), gen := s.gen)]
  {
    hide Reached, AllTo, CanStep, DoStep, UpToDate, GoalOf, EnoughPeers, ProposalSize;
    Go(env, slip, s, ChooseCreate(e, t, plan));
    var s1 := DoStep(env, s, ChooseCreate(e, t, plan));
    Chosen(env, s, e, t, plan);
    StillFollowed(s, s1, e);
    hide Followed, Fenced;
    s' := Carry(env, slip, s1, e);
  }

  /** The creation that e has chosen is carried out. */
  lemma Carry(env: Env, slip: Option<Action>, s: Sys, e: Epoch) returns (s': Sys)
    requires Reached(env, slip, s) && Followed(s, e) && InPhase(s, e, Clearing)
    requires var pc, view := s.cycles[e].pc, s.cycles[e].view;
             pc.todo == view - (view - s.cfg.Keys) && pc.plan <= view && s.prepared == map[] && s.up <= s.cfg.Keys
    ensures Reached(env, slip, s') && SameLeaders(s, s', e) && Followed(s', e)
    ensures var pc, view := s.cycles[e].pc, s.cycles[e].view;
            Durable(s') == Durable(s).(cfg := Recreated(s.cfg, view, pc.plan, pc.token), up := s.up - view + pc.plan)
    ensures s'.cycles == s.cycles[e := s.cycles[e].(pc := Stage(s, e, Forming, {}))]
  {
    hide Reached, AllTo;
    var todo := s.cycles[e].pc.todo;
    Cleared(s, s.cycles[e].view, todo);
    ClearAll(env, slip, s, e, todo);
    var s2 := WithPc(s.(cfg := s.cfg - todo, up := s.up - todo), e, Stage(s, e, Clearing, {}));
    StillFollowed(s, s2, e);
    hide Followed, Fenced;
    s' := Form(env, slip, s2, e);
  }

  lemma Chosen(env: Env, s: Sys, e: Epoch, t: Token, plan: set<Node>)
    requires CanStep(env, s, ChooseCreate(e, t, plan))
    ensures var s1 := DoStep(env, s, ChooseCreate(e, t, plan));
            && SameLeaders(s, s1, e) && plan <= s.cycles[e].view
            && Durable(s1) == Durable(s).(clusters := s.clusters[t := Cluster(plan, map[], s.gen, e)])
            && s1.cycles == s.cycles[e := s.cycles[e].(
                 pc := Creating(Clearing, GoalOf(s, e), t, plan, s.cycles[e].view - s.cycles[e].idle), gen := s.gen)]
  {
  }

  lemma Cleared(s: Sys, view: set<Node>, todo: set<Node>)
    requires todo == view - (view - s.cfg.Keys) && s.up <= s.cfg.Keys
    ensures s.cfg - todo == s.cfg - view && s.up - todo == s.up - view && todo <= s.cfg.Keys
  {
  }

  lemma Form(env: Env, slip: Option<Action>, s: Sys, e: Epoch) returns (s': Sys)
    requires Reached(env, slip, s) && Followed(s, e) && InPhase(s, e, Clearing) && s.cycles[e].pc.todo == {}
    requires s.prepared == map[] && s.cycles[e].view !! s.up && s.cycles[e].pc.plan <= s.cycles[e].view
    ensures Reached(env, slip, s') && SameLeaders(s, s', e) && Followed(s', e)
    ensures var pc := s.cycles[e].pc;
            Durable(s') == Durable(s).(cfg := s.cfg + AllTo(pc.plan, Config(pc.token, true)), up := s.up + pc.plan)
    ensures s'.cycles == s.cycles[e := s.cycles[e].(pc := Stage(s, e, Forming, {}))]
  {
    hide Reached, AllTo;
    var plan, t := s.cycles[e].pc.plan, s.cycles[e].pc.token;
    Go(env, slip, s, BeginPrepare(e));
    var s1 := DoStep(env, s, BeginPrepare(e));
    PrepareAll(env, slip, s1, e, plan);
    var s2 := PreparedAll(s1, e, plan);
    Go(env, slip, s2, BeginCommit(e));
    var s3 := DoStep(env, s2, BeginCommit(e));
    OnlyAllTo(s.prepared, plan, t);
    CommitAll(env, slip, s3, e, plan);
    s' := CommittedAll(s3, e, plan);
  }

  // ---------------------------------------------------------------- restoring

  function Filled(clusters: map<Token, Cluster>, t: Token, kv: KeyValues): map<Token, Cluster>
    requires t in clusters
  {
    clusters[t := clusters[t].(kv := kv)]
  }

  lemma FilledTwice(clusters: map<Token, Cluster>, t: Token, a: KeyValues, b: KeyValues)
    requires t in clusters
    ensures t in Filled(clusters, t, a) && Filled(clusters, t, a)[t] == clusters[t].(kv := a)
    ensures Filled(Filled(clusters, t, a), t, b) == Filled(clusters, t, b)
    ensures clusters[t].kv == a ==> Filled(clusters, t, a) == clusters
  {
  }

  /** e has copied all keys but `left`. */
  predicate Partway(s: Sys, e: Epoch, left: set<string>) {
    && At(s, e) && Unsuperseded(s, e) && s.cycles[e].pc.Copying? && s.cycles[e].pc.left == left && left <= s.cycles[e].pc.source.Keys
    && Quorate(s, s.cycles[e].pc.target)
    && s.clusters[s.cycles[e].pc.target].kv == s.cycles[e].pc.source - left
  }

  lemma {:induction false} CopyRest(env: Env, slip: Option<Action>, s: Sys, e: Epoch, left: set<string>) returns (s': Sys)
    requires Reached(env, slip, s) && Partway(s, e, left)
    ensures Reached(env, slip, s') && SameLeaders(s, s', e)
    ensures var pc := s.cycles[e].pc;
            && Durable(s') == Durable(s).(clusters := Filled(s.clusters, pc.target, pc.source))
            && s'.cycles == s.cycles[e := s.cycles[e].(pc := Copying(pc.target, pc.plan, pc.source, {}))]
    decreases left
  {
    hide Reached, CanWrite, DoWrite, Filled;
    var pc := s.cycles[e].pc;
    if left == {} {
      s' := s;
      assert pc.source - left == pc.source;
      FilledTwice(s.clusters, pc.target, pc.source, pc.source);
    } else {
      var k := Any(left);
      CopyOne(s, e, k);
      Note(env, slip, s, e, Copy(k));
      var s1 := DoWrite(s, e, Copy(k));
      FilledTwice(s.clusters, pc.target, pc.source - (left - {k}), pc.source);
      hide SameLeaders, Partway, At, Quorate;
      s' := CopyRest(env, slip, s1, e, left - {k});
      Then(s, s1, s', e, s'.cycles[e]);
    }
  }

  lemma CopyOne(s: Sys, e: Epoch, k: string)
    requires At(s, e) && s.cycles[e].pc.Copying? && Partway(s, e, s.cycles[e].pc.left) && k in s.cycles[e].pc.left
    ensures CanWrite(s, e, Copy(k))
    ensures var s1, pc := DoWrite(s, e, Copy(k)), s.cycles[e].pc;
            && SameLeaders(s, s1, e) && Partway(s1, e, pc.left - {k})
            && Durable(s1) == Durable(s).(clusters := s1.clusters)
            && s1.cycles == s.cycles[e := s.cycles[e].(pc := Copying(pc.target, pc.plan, pc.source, pc.left - {k}))]
            && s1.clusters == Filled(s.clusters, pc.target, pc.source - (pc.left - {k}))
  {
    var s1, pc := DoWrite(s, e, Copy(k)), s.cycles[e].pc;
    assert Running(s1, pc.target) == Running(s, pc.target);
    assert s.clusters[pc.target].kv[k := pc.source[k]] == pc.source - (pc.left - {k});
  }

  /** A member that was healthy at the survey is asked for the restore. */
  lemma Ordered(env: Env, slip: Option<Action>, s: Sys, e: Epoch, n: Node) returns (s': Sys)
    requires Reached(env, slip, s) && CanRequest(s, e, n, BeginCopy) && InPhase(s, e, Forming)
    ensures Reached(env, slip, s') && SameLeaders(s, s', e) && Durable(s') == Durable(s)
    ensures var pc := s.cycles[e].pc;
            s'.cycles == s.cycles[e := s.cycles[e].(pc := Copying(s.cfg[n].token, pc.plan, pc.goal.backup, pc.goal.backup.Keys))]
  {
    hide Reached;
    Ask(env, slip, s, e, n, BeginCopy);
    s' := DoRequest(s, e, n, BeginCopy);
  }

  /** The backup is copied into the cluster just formed. */
  lemma Fill(env: Env, slip: Option<Action>, s: Sys, e: Epoch, n: Node) returns (s': Sys)
    requires Reached(env, slip, s) && Followed(s, e) && At(s, e) && InPhase(s, e, Forming) && Observes(s, e)
    requires var pc := s.cycles[e].pc;
             && pc.todo == {} && pc.goal.Restore? && pc.plan <= s.cycles[e].view && n in pc.plan && n in s.cycles[e].fit
             && Stands(s, pc.token, pc.plan) && s.clusters[pc.token].kv == map[]
    ensures Reached(env, slip, s') && SameLeaders(s, s', e)
    ensures var pc := s.cycles[e].pc;
            && Durable(s') == Durable(s).(clusters := Filled(s.clusters, pc.token, pc.goal.backup))
            && s'.cycles == s.cycles[e := s.cycles[e].(pc := Copying(pc.token, pc.plan, pc.goal.backup, {}))]
  {
    hide Reached, Quorate;
    var pc := s.cycles[e].pc;
    StandsIsQuorate(s, pc.token, pc.plan);
    var s1 := Ordered(env, slip, s, e, n);
    SameQuorum(s, s1, pc.token);
    StillFollowed(s, s1, e);
    assert pc.goal.backup - pc.goal.backup.Keys == map[];
    hide CanRequest, Stands;
    assert Unsuperseded(s1, e);
    assert Durable(s1).clusters == s1.clusters && Durable(s1).caches == s1.caches;
    s' := CopyRest(env, slip, s1, e, pc.goal.backup.Keys);
  }

  // ---------------------------------------------------------------- flags

  function Reflag(cfg: map<Node, Config>, nodes: set<Node>, flag: bool): map<Node, Config> {
    map n | n in cfg :: if n in nodes then cfg[n].(quarantined := flag) else cfg[n]
  }

  lemma ReflagStep(cfg: map<Node, Config>, nodes: set<Node>, n: Node, flag: bool)
    requires n in nodes && n in cfg
    ensures Reflag(cfg[n := cfg[n].(quarantined := flag)], nodes - {n}, flag) == Reflag(cfg, nodes, flag)
  {
  }

  lemma ReflagNone(cfg: map<Node, Config>, flag: bool)
    ensures Reflag(cfg, {}, flag) == cfg
  {
  }

  lemma LiftOne(s: Sys, e: Epoch, n: Node)
    requires Fenced(s, e, n) && s.cycles[e].pc.Lifting? && Observes(s, e)
    requires n in s.cfg && n in s.clusters[s.cycles[e].obs.value].members
    ensures CanRequest(s, e, n, Lift)
    ensures var s1 := DoRequest(s, e, n, Lift);
            && SameLeaders(s, s1, e) && s1.cycles == s.cycles
            && Durable(s1) == Durable(s).(cfg := s.cfg[n := s.cfg[n].(quarantined := false)], up := s.up + {n})
  {
  }

  lemma {:induction false} LiftAll(env: Env, slip: Option<Action>, s: Sys, e: Epoch, todo: set<Node>) returns (s': Sys)
    requires Reached(env, slip, s) && e in s.cycles && s.cycles[e].pc.Lifting? && Observes(s, e)
    requires todo <= s.clusters[s.cycles[e].obs.value].members && todo <= s.cfg.Keys && forall n | n in todo :: Fenced(s, e, n)
    ensures Reached(env, slip, s') && SameLeaders(s, s', e) && s'.cycles == s.cycles
    ensures Durable(s') == Durable(s).(cfg := Reflag(s.cfg, todo, false), up := s.up + todo)
    decreases todo
  {
    hide Reached, CanRequest, DoRequest, Reflag;
    if todo == {} {
      s' := s;
      ReflagNone(s.cfg, false);
      assert s.up + todo == s.up;
    } else {
      var n := Any(todo);
      LiftOne(s, e, n);
      Ask(env, slip, s, e, n, Lift);
      var s1 := DoRequest(s, e, n, Lift);
      s' := LiftAll(env, slip, s1, e, todo - {n});
      ReflagStep(s.cfg, todo, n, false);
      assert s.up + {n} + (todo - {n}) == s.up + todo;
    }
  }

  /** A cycle lifts the quarantine at some members. */
  lemma Open(env: Env, slip: Option<Action>, s: Sys, e: Epoch, todo: set<Node>) returns (s': Sys)
    requires Reached(env, slip, s) && CanStep(env, s, ChooseLift(e)) && Observes(s, e)
    requires UpToDate(s, e) || slip == Some(Controller(ChooseLift(e)))
    requires todo <= s.clusters[s.cycles[e].obs.value].members && todo <= s.cfg.Keys && forall n | n in todo :: Fenced(s, e, n)
    ensures Reached(env, slip, s') && SameLeaders(s, s', e)
    ensures Durable(s') == Durable(s).(cfg := Reflag(s.cfg, todo, false), up := s.up + todo)
    ensures s'.cycles == s.cycles[e := s.cycles[e].(pc := Lifting, gen := s.gen)]
  {
    hide Reached, Reflag;
    Go(env, slip, s, ChooseLift(e));
    var s1 := DoStep(env, s, ChooseLift(e));
    s' := LiftAll(env, slip, s1, e, todo);
  }

  lemma QuarantineOne(s: Sys, e: Epoch, n: Node)
    requires Fenced(s, e, n) && s.cycles[e].pc.Quarantining? && n in s.cycles[e].pc.unflagged && n in s.cfg
    ensures CanRequest(s, e, n, Quarantine)
    ensures var s1 := DoRequest(s, e, n, Quarantine);
            && SameLeaders(s, s1, e)
            && s1.cycles == s.cycles[e := s.cycles[e].(pc := Quarantining(s.cycles[e].pc.unflagged - {n}))]
            && Durable(s1) == Durable(s).(cfg := s.cfg[n := s.cfg[n].(quarantined := true)], up := s.up + {n})
  {
  }

  lemma {:induction false} QuarantineAll(env: Env, slip: Option<Action>, s: Sys, e: Epoch, todo: set<Node>) returns (s': Sys)
    requires Reached(env, slip, s) && Followed(s, e) && s.cycles[e].pc == Quarantining(todo)
    requires todo <= s.cycles[e].view && todo <= s.cfg.Keys
    ensures Reached(env, slip, s') && SameLeaders(s, s', e)
    ensures Durable(s') == Durable(s).(cfg := Reflag(s.cfg, todo, true), up := s.up + todo)
    ensures s'.cycles == s.cycles[e := s.cycles[e].(pc := Quarantining({}))]
    decreases todo
  {
    hide Reached, CanRequest, DoRequest, Reflag;
    if todo == {} {
      s' := s;
      ReflagNone(s.cfg, true);
      assert s.up + todo == s.up;
    } else {
      var n := Any(todo);
      QuarantineOne(s, e, n);
      Ask(env, slip, s, e, n, Quarantine);
      var s1 := DoRequest(s, e, n, Quarantine);
      s' := QuarantineAll(env, slip, s1, e, todo - {n});
      Then(s, s1, s', e, s'.cycles[e]);
      ReflagStep(s.cfg, todo, n, true);
      assert s.up + {n} + (todo - {n}) == s.up + todo;
    }
  }

  /** A cycle quarantines the members of a complete cluster and dumps it. */
  lemma Dump(env: Env, slip: Option<Action>, s: Sys, e: Epoch, t: Token, plan: set<Node>) returns (s': Sys)
    requires Reached(env, slip, s) && Followed(s, e) && CanStep(env, s, ChooseUpgrade(e)) && s.cycles[e].obs == Some(t)
    requires UpToDate(s, e) || slip == Some(Controller(ChooseUpgrade(e)))
    requires Stands(s, t, plan) && plan <= s.cycles[e].view
    ensures Reached(env, slip, s') && SameLeaders(s, s', e)
    ensures Durable(s') == Durable(s).(cfg := Reflag(s.cfg, plan, true), up := s.up + plan)
    ensures s'.cycles == s.cycles[e := s.cycles[e].(pc := Queueing(s.clusters[t].kv), gen := s.gen)]
  {
    hide Reached, Reflag;
    Go(env, slip, s, ChooseUpgrade(e));
    var s1 := DoStep(env, s, ChooseUpgrade(e));
    var s2 := QuarantineAll(env, slip, s1, e, plan);
    var n := Any(plan);
    DumpOne(s, s2, e, n, t, plan);
    Ask(env, slip, s2, e, n, Request.Dump);
    s' := DoRequest(s2, e, n, Request.Dump);
  }

  lemma DumpOne(s: Sys, s2: Sys, e: Epoch, n: Node, t: Token, plan: set<Node>)
    requires Stands(s, t, plan) && n in plan && e in s2.cycles && s2.cycles[e].pc == Quarantining({}) && Fenced(s2, e, n)
    requires s2.cfg == Reflag(s.cfg, plan, true) && s2.up == s.up + plan && s2.clusters == s.clusters
    requires s2.cycles[e].obs == Some(t)
    ensures CanRequest(s2, e, n, Request.Dump) && s2.cfg[n].token == t
  {
  }
}
