/** The protocol can follow the service: whatever calls, failures, exits and restarts happen at one machine,
    there is a run of the protocol in which its node goes through the same. */
module Simulation {
  import opened Options
  import N = Node
  import T = NodeTheorems
  import P = Protocol
  import opened Refinement

  // ---------------------------------------------------------------- tokens and their texts

  /** The text of each cluster token. */
  type Texts = P.Token -> string

  ghost predicate Injective(text: Texts) {
    forall a, b | text(a) == text(b) :: a == b
  }

  function Labelled(text: Texts, m: Move<P.Token>): Move<string> {
    match m
    case Flag(flag) => Flag(flag)
    case Stop => Stop
    case Commit(t, q) => Commit(text(t), q)
    case Prepare(t) => Prepare(text(t))
    case Expire => Expire
    case Exit => Exit
    case Run => Run
    case Crash => Crash
  }

  /** The machine is as the protocol has it, but for a preparation that a failed commit left behind. */
  predicate Follows(text: Texts, f: Face<string>, g: Face<P.Token>) {
    && f.up == g.up && f.cfg.Some? == g.cfg.Some?
    && (g.cfg.Some? ==> f.cfg == Some((text(g.cfg.value.0), g.cfg.value.1)))
    && (g.prepared.Some? ==> f.prepared == Some(text(g.prepared.value)))
  }

  lemma FollowsMove(text: Texts, f: Face<string>, g: Face<P.Token>, m: Move<P.Token>)
    requires Follows(text, f, g) && Enabled(f, Labelled(text, m)) && Injective(text)
    requires m.Commit? ==> g.prepared.Some?
    ensures Enabled(g, m) && Follows(text, Moved(f, Labelled(text, m)), Moved(g, m))
  {
  }

  // ---------------------------------------------------------------- one call

  /** The leader's request behind a call. */
  datatype Ask = Ask(e: P.Epoch, r: P.Request)

  /** A leader that the node accepted is at the point of sending the request, and what it commits it has
      prepared. */
  predicate Sent(text: Texts, s: P.Sys, p: P.Node, ask: Ask, m: Move<string>) {
    && P.Fenced(s, ask.e, p) && AtPoint(s, ask.e, p, ask.r)
    && RequestMove(s.cycles[ask.e], p, ask.r).Some? && Labelled(text, RequestMove(s.cycles[ask.e], p, ask.r).value) == m
    && (m.Commit? ==> p in s.prepared)
  }

  /** Every move that the call makes for a leader was asked for by one. */
  predicate AllSent(text: Texts, s: P.Sys, p: P.Node, ask: Option<Ask>, moves: seq<Move<string>>) {
    forall i | 0 <= i < |moves| && !IsOwn(moves[i]) :: ask.Some? && Sent(text, s, p, ask.value, moves[i])
  }

  function ActionOf(p: P.Node, ask: Option<Ask>, m: Move<string>): P.Action {
    if IsOwn(m) || ask.None? then OwnAction(if IsOwn(m) then m else Exit, p) else P.Rpc(ask.value.e, p, ask.value.r)
  }

  /** The steps of the protocol for the moves, as far as they are enabled. */
  function Played(env: P.Env, s: P.Sys, actions: seq<P.Action>): P.Sys
    decreases |actions|
  {
    if actions == [] then s
    else var s' := if P.Guard(env, s, actions[0]) then P.Apply(env, s, actions[0]) else s;
         Played(env, s', actions[1..])
  }

  predicate AllEnabledSteps(env: P.Env, s: P.Sys, actions: seq<P.Action>)
    decreases |actions|
  {
    actions == [] || (P.Guard(env, s, actions[0]) && AllEnabledSteps(env, P.Apply(env, s, actions[0]), actions[1..]))
  }

  function ActionsOf(p: P.Node, ask: Option<Ask>, moves: seq<Move<string>>): seq<P.Action> {
    if moves == [] then [] else [ActionOf(p, ask, moves[0])] + ActionsOf(p, ask, moves[1..])
  }

  /** The faces of all other nodes are as before. */
  ghost predicate OthersKept(s: P.Sys, s': P.Sys, p: P.Node) {
    forall o | o != p :: ProtocolFace(s', o) == ProtocolFace(s, o)
  }

  lemma OneStep(env: P.Env, text: Texts, s: P.Sys, p: P.Node, f: Face<string>, ask: Option<Ask>, m: Move<string>)
    requires Injective(text) && Follows(text, f, ProtocolFace(s, p)) && Enabled(f, m)
    requires IsOwn(m) || (ask.Some? && Sent(text, s, p, ask.value, m))
    ensures P.Guard(env, s, ActionOf(p, ask, m))
    ensures var s' := P.Apply(env, s, ActionOf(p, ask, m));
            Follows(text, Moved(f, m), ProtocolFace(s', p)) && OthersKept(s, s', p)
  {
    hide P.Guard, P.Apply, P.CanRequest, P.DoRequest;
    if IsOwn(m) {
      var own: Move<P.Token> := match m case Crash => Crash case Exit => Exit case Run => Run case _ => Expire;
      FollowsMove(text, f, ProtocolFace(s, p), own);
      OwnMovesAreSteps(env, s, p, own);
    } else {
      var move := RequestMove(s.cycles[ask.value.e], p, ask.value.r).value;
      FollowsMove(text, f, ProtocolFace(s, p), move);
      RequestsAreSteps(s, ask.value.e, p, ask.value.r);
      RequestIsGuarded(env, s, ask.value.e, p, ask.value.r);
    }
  }

  lemma RequestIsGuarded(env: P.Env, s: P.Sys, e: P.Epoch, n: P.Node, r: P.Request)
    requires P.CanRequest(s, e, n, r)
    ensures P.Guard(env, s, P.Rpc(e, n, r)) && P.Apply(env, s, P.Rpc(e, n, r)) == P.DoRequest(s, e, n, r)
  {
  }

  /** A preparation that expires does not stop the leader. */
  lemma StillSent(env: P.Env, text: Texts, s: P.Sys, p: P.Node, ask: Ask, m: Move<string>)
    requires Sent(text, s, p, ask, m) && m.Prepare?
    ensures Sent(text, P.DoLocally(env, s, P.LocalAction.Expire(p)), p, ask, m)
  {
  }

  lemma NoSteps(env: P.Env, s: P.Sys)
    ensures AllEnabledSteps(env, s, []) && Played(env, s, []) == s
  {
  }

  lemma FirstStep(env: P.Env, s: P.Sys, a: P.Action, rest: seq<P.Action>)
    requires P.Guard(env, s, a) && AllEnabledSteps(env, P.Apply(env, s, a), rest)
    ensures AllEnabledSteps(env, s, [a] + rest) && Played(env, s, [a] + rest) == Played(env, P.Apply(env, s, a), rest)
  {
    assert ([a] + rest)[1..] == rest;
  }

  /** At most one of the moves is for a leader, and before it only a preparation expires. */
  predicate Typical(moves: seq<Move<string>>) {
    || moves == [] || |moves| == 1
    || (|moves| == 2 && ((IsOwn(moves[1]) && !moves[0].Expire?) || (moves[0].Expire? && moves[1].Prepare?)))
  }

  lemma MovesAreTypical(c: N.Config, n: N.Node, call: N.Call, luck: N.Luck)
    ensures Typical(MovesOf(c, n, call, luck))
  {
  }

  lemma MovesFollow(env: P.Env, text: Texts, s: P.Sys, p: P.Node, f: Face<string>, ask: Option<Ask>, moves: seq<Move<string>>)
    requires Injective(text) && Follows(text, f, ProtocolFace(s, p)) && AllEnabled(f, moves) && Typical(moves)
    requires AllSent(text, s, p, ask, moves)
    ensures var actions := ActionsOf(p, ask, moves);
            && AllEnabledSteps(env, s, actions)
            && Follows(text, MovedAll(f, moves), ProtocolFace(Played(env, s, actions), p))
            && OthersKept(s, Played(env, s, actions), p)
  {
    hide P.Guard, P.Apply, Sent, Follows, ProtocolFace, Enabled, Moved;
    NoSteps(env, s);
    if |moves| == 1 {
      assert moves == [moves[0]] && moves[1..] == [];
      OneMove(f, moves[0]);
      OneStep(env, text, s, p, f, ask, moves[0]);
      var s1 := P.Apply(env, s, ActionOf(p, ask, moves[0]));
      NoSteps(env, s1);
      FirstStep(env, s, ActionOf(p, ask, moves[0]), []);
    } else if |moves| == 2 {
      assert moves == [moves[0], moves[1]] && moves[1..] == [moves[1]] && moves[1..][1..] == [];
      TwoMoves(f, moves[0], moves[1]);
      OneStep(env, text, s, p, f, ask, moves[0]);
      var a, b := ActionOf(p, ask, moves[0]), ActionOf(p, ask, moves[1]);
      var s1 := P.Apply(env, s, a);
      if moves[0].Expire? { ExpiryStep(env, text, s, p, ask, moves[1]); }
      OneStep(env, text, s1, p, Moved(f, moves[0]), ask, moves[1]);
      NoSteps(env, P.Apply(env, s1, b));
      FirstStep(env, s1, b, []);
      FirstStep(env, s, a, [b]);
      assert ActionsOf(p, ask, moves[1..][1..]) == [] && ActionsOf(p, ask, moves[1..]) == [b];
    }
  }

  lemma ExpiryStep(env: P.Env, text: Texts, s: P.Sys, p: P.Node, ask: Option<Ask>, m: Move<string>)
    requires m.Prepare? && ask.Some? && Sent(text, s, p, ask.value, m)
    ensures var a := ActionOf(p, ask, Move<string>.Expire);
            P.Guard(env, s, a) && Sent(text, P.Apply(env, s, a), p, ask.value, m)
  {
    StillSent(env, text, s, p, ask.value, m);
  }

  /** One call: the protocol has steps that bring its node to the same face and no other node anywhere else. */
  lemma CallIsFollowed(env: P.Env, text: Texts, c: N.Config, s: P.Sys, p: P.Node, n: N.Node, call: N.Call, luck: N.Luck, ask: Option<Ask>)
    requires Injective(text) && Follows(text, ServiceFace(n), ProtocolFace(s, p))
    requires T.NoFailedWrite(luck) && T.Synced(n) && T.Agrees(c, n)
    requires AllSent(text, s, p, ask, MovesOf(c, n, call, luck))
    ensures var actions := ActionsOf(p, ask, MovesOf(c, n, call, luck));
            && AllEnabledSteps(env, s, actions)
            && Follows(text, ServiceFace(N.Step(c, n, call, luck).0), ProtocolFace(Played(env, s, actions), p))
            && OthersKept(s, Played(env, s, actions), p)
  {
    hide MovesOf, N.Step, Sent, T.Synced, T.Agrees;
    ServiceStepMoves(c, n, call, luck);
    MovesAreTypical(c, n, call, luck);
    MovesFollow(env, text, s, p, ServiceFace(n), ask, MovesOf(c, n, call, luck));
  }

  // ---------------------------------------------------------------- whole runs

  /** A call at the machine, or a step of the protocol that leaves its node alone: leaders, other nodes, clients. */
  datatype Beat =
    | Here(call: N.Call, luck: N.Luck, ask: Option<Ask>)
    | Elsewhere(action: P.Action)

  function ServiceAfter(c: N.Config, n: N.Node, b: Beat): N.Node {
    if b.Here? then N.Step(c, n, b.call, b.luck).0 else n
  }

  function StepsFor(c: N.Config, p: P.Node, n: N.Node, b: Beat): seq<P.Action> {
    if b.Here? then ActionsOf(p, b.ask, MovesOf(c, n, b.call, b.luck)) else [b.action]
  }

  /** The beat can happen: no write of the state file fails, and what is asked of the machine a leader asks. */
  ghost predicate CanPlay(env: P.Env, text: Texts, c: N.Config, s: P.Sys, p: P.Node, n: N.Node, b: Beat) {
    match b
    case Here(call, luck, ask) => T.NoFailedWrite(luck) && AllSent(text, s, p, ask, MovesOf(c, n, call, luck))
    case Elsewhere(a) => P.Guard(env, s, a) && ProtocolFace(P.Apply(env, s, a), p) == ProtocolFace(s, p)
  }

  ghost predicate Playable(env: P.Env, text: Texts, c: N.Config, s: P.Sys, p: P.Node, n: N.Node, script: seq<Beat>)
    decreases |script|
  {
    script != [] ==>
      && CanPlay(env, text, c, s, p, n, script[0])
      && Playable(env, text, c, Played(env, s, StepsFor(c, p, n, script[0])), p, ServiceAfter(c, n, script[0]), script[1..])
  }

  function ServiceAfterAll(c: N.Config, n: N.Node, script: seq<Beat>): N.Node
    decreases |script|
  {
    if script == [] then n else ServiceAfterAll(c, ServiceAfter(c, n, script[0]), script[1..])
  }

  lemma {:induction false} RunOn(env: P.Env, states: seq<P.Sys>, actions: seq<P.Action>, more: seq<P.Action>)
    returns (states': seq<P.Sys>, actions': seq<P.Action>)
    requires P.Run(env, states, actions) && AllEnabledSteps(env, states[|actions|], more)
    ensures P.Run(env, states', actions') && states <= states' && actions' == actions + more
    ensures states'[|actions'|] == Played(env, states[|actions|], more)
    decreases |more|
  {
    if more == [] {
      states', actions' := states, actions;
    } else {
      var s, a := states[|actions|], more[0];
      hide P.Guard, P.Apply;
      var states1, actions1 := states + [P.Apply(env, s, a)], actions + [a];
      assert P.Run(env, states1, actions1);
      assert states1[|actions1|] == P.Apply(env, s, a);
      states', actions' := RunOn(env, states1, actions1, more[1..]);
      assert more == [a] + more[1..];
    }
  }

  lemma BeatIsFollowed(env: P.Env, text: Texts, c: N.Config, s: P.Sys, p: P.Node, n: N.Node, b: Beat)
    requires Injective(text) && Follows(text, ServiceFace(n), ProtocolFace(s, p)) && T.Synced(n) && T.Agrees(c, n)
    requires CanPlay(env, text, c, s, p, n, b)
    ensures AllEnabledSteps(env, s, StepsFor(c, p, n, b))
    ensures Follows(text, ServiceFace(ServiceAfter(c, n, b)), ProtocolFace(Played(env, s, StepsFor(c, p, n, b)), p))
    ensures T.Synced(ServiceAfter(c, n, b)) && T.Agrees(c, ServiceAfter(c, n, b))
  {
    hide P.Guard, P.Apply, T.Synced, T.Agrees, N.Step, MovesOf;
    match b
    case Here(call, luck, ask) =>
      CallIsFollowed(env, text, c, s, p, n, call, luck, ask);
      T.StepSynced(c, n, call, luck);
      T.StepAgrees(c, n, call, luck);
    case Elsewhere(a) =>
      NoSteps(env, P.Apply(env, s, a));
      FirstStep(env, s, a, []);
  }

  /** Whatever happens at a machine, whatever a leader asks of it, and whatever happens elsewhere, in any
      interleaving: every run of the protocol goes on to one whose node follows the machine. */
  lemma {:induction false} MachineIsFollowed(env: P.Env, text: Texts, c: N.Config, states: seq<P.Sys>, actions: seq<P.Action>,
                                             p: P.Node, n: N.Node, script: seq<Beat>)
    returns (states': seq<P.Sys>, actions': seq<P.Action>)
    requires P.Run(env, states, actions) && Injective(text) && T.Synced(n) && T.Agrees(c, n)
    requires Follows(text, ServiceFace(n), ProtocolFace(states[|actions|], p))
    requires Playable(env, text, c, states[|actions|], p, n, script)
    ensures P.Run(env, states', actions') && states <= states' && actions <= actions'
    ensures Follows(text, ServiceFace(ServiceAfterAll(c, n, script)), ProtocolFace(states'[|actions'|], p))
    decreases |script|
  {
    if script == [] {
      states', actions' := states, actions;
    } else {
      hide T.Synced, T.Agrees, Follows, CanPlay, ServiceFace, ProtocolFace, StepsFor, P.Run;
      var s, b := states[|actions|], script[0];
      BeatIsFollowed(env, text, c, s, p, n, b);
      var states1, actions1 := RunOn(env, states, actions, StepsFor(c, p, n, b));
      states', actions' := MachineIsFollowed(env, text, c, states1, actions1, p, ServiceAfter(c, n, b), script[1..]);
    }
  }

  // ---------------------------------------------------------------- failures alone

  predicate ByItself(b: Beat) {
    b.Here? && !b.call.Rpc? && T.NoFailedWrite(b.luck)
  }

  lemma {:induction false} FailuresArePlayable(env: P.Env, text: Texts, c: N.Config, s: P.Sys, p: P.Node, n: N.Node, script: seq<Beat>)
    requires forall i | 0 <= i < |script| :: ByItself(script[i])
    ensures Playable(env, text, c, s, p, n, script)
    decreases |script|
  {
    if script != [] {
      var b := script[0];
      assert ByItself(b);
      assert AllSent(text, s, p, b.ask, MovesOf(c, n, b.call, b.luck));
      FailuresArePlayable(env, text, c, Played(env, s, StepsFor(c, p, n, b)), p, ServiceAfter(c, n, b), script[1..]);
    }
  }

  /** In particular every sequence of crashes, restarts, exits and failed starts of a machine happens in some run,
      from every state that a run can reach. */
  lemma FailuresAreFollowed(env: P.Env, text: Texts, c: N.Config, states: seq<P.Sys>, actions: seq<P.Action>,
                            p: P.Node, n: N.Node, script: seq<Beat>)
    returns (states': seq<P.Sys>, actions': seq<P.Action>)
    requires P.Run(env, states, actions) && Injective(text) && T.Synced(n) && T.Agrees(c, n)
    requires Follows(text, ServiceFace(n), ProtocolFace(states[|actions|], p))
    requires forall i | 0 <= i < |script| :: ByItself(script[i])
    ensures P.Run(env, states', actions') && states <= states' && actions <= actions'
    ensures Follows(text, ServiceFace(ServiceAfterAll(c, n, script)), ProtocolFace(states'[|actions'|], p))
  {
    FailuresArePlayable(env, text, c, states[|actions|], p, n, script);
    states', actions' := MachineIsFollowed(env, text, c, states, actions, p, n, script);
  }
}
