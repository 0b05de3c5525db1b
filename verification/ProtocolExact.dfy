/** Up to which desired size a leader may copy a backup without being followed any more. */
module ProtocolExact {
  import opened Options
  import opened Quorum
  import opened Protocol
  import I = ProtocolInvariant
  import T = ProtocolTheorems
  import R = ProtocolRuns
  import S = ProtocolStories
  import L = ProtocolLimits

  /** Every step but a copy is disciplined. */
  ghost predicate LooseRun(env: Env, states: seq<Sys>, actions: seq<Action>) {
    Run(env, states, actions) && forall i | 0 <= i < |actions| :: Disciplined(env, states[i], actions[i]) || IsCopy(actions[i])
  }

  predicate IsCopy(a: Action) {
    a.Unfenced? && a.write.Copy?
  }

  /** Whatever interleaving, with a desired size of `desired` and fewer than two quorums of machines, clients read
      what was acknowledged although copies are not fenced. */
  ghost predicate CopiesAreSafe(desired: nat) {
    forall env: Env, states, actions | env.memberCount == desired && env.Ok() && LooseRun(env, states, actions) ::
      I.Faithful(states[|actions|])
  }

  lemma SmallIsSafe(desired: nat)
    requires desired <= 3
    ensures CopiesAreSafe(desired)
  {
    forall env: Env, states, actions | env.memberCount == desired && env.Ok() && LooseRun(env, states, actions)
      ensures I.Faithful(states[|actions|])
    {
      assert DisciplinedRun(env, states, actions);
      T.RunKeepsInv(env, states, actions, |actions|);
      I.InvIsFaithful(env, states[|actions|]);
    }
  }

  // ---------------------------------------------------------------- larger sizes

  function Range(low: nat, high: nat): (r: set<Node>)
    requires low <= high
    ensures |r| == high - low && forall n :: n in r <==> low <= n < high
    decreases high - low
  {
    if low == high then {} else Range(low, high - 1) + {high - 1}
  }

  /** As many machines as members; a leader of all of them, and one of a bare quorum. */
  lemma Larger(desired: nat) returns (env: Env)
    requires desired >= 4
    ensures env == Env(Range(0, desired), desired) && env.Ok() && |env.nodes| == desired
    ensures S.Founder(env, 0, env.nodes, env.nodes)
    ensures L.Leader(env, 1, Range(1, env.Q() + 1)) && !EnoughPeers(|Range(1, env.Q() + 1)|, desired)
  {
    env := Env(Range(0, desired), desired);
    assert 0 in env.nodes;
  }

  lemma LargeIsUnsafe(desired: nat)
    requires desired >= 4
    ensures !CopiesAreSafe(desired)
  {
    var env := Larger(desired);
    hide L.Wrong, S.Founder, L.Leader, EnoughPeers;
    var s := L.SupersededCopyLosesWrites(env, 0, env.nodes, env.nodes, 0, 1, Range(1, env.Q() + 1), 1);
    LostByCopy(env, 3, s, 1);
  }

  lemma LostByCopy(env: Env, e: Epoch, s: Sys, n: Node)
    requires env.Ok() && R.Reached(env, Some(Unfenced(e, Copy("k"))), s) && L.Wrong(s, n)
    ensures !CopiesAreSafe(env.memberCount)
  {
    var slip := Some(Unfenced(e, Copy("k")));
    var states, actions :| Run(env, states, actions) && states[|actions|] == s && R.Slips(env, slip, states, actions);
    assert LooseRun(env, states, actions) by {
      forall i | 0 <= i < |actions| ensures Disciplined(env, states[i], actions[i]) || IsCopy(actions[i]) {
        assert R.Allowed(env, slip, states[i], actions[i]);
      }
    }
    assert !I.Faithful(s);
  }

  /** Copies need no fence exactly up to a desired size of three. */
  lemma WhenCopiesAreSafe(desired: nat)
    requires desired >= 1
    ensures CopiesAreSafe(desired) <==> desired <= 3
    ensures CopiesAreSafe(desired) <==> forall peers: nat | peers >= QuorumSize(desired) :: EnoughPeers(peers, desired)
  {
    if desired <= 3 { SmallIsSafe(desired); } else { LargeIsUnsafe(desired); }
    hide CopiesAreSafe;
    SmallSizes(desired);
  }
}
