/** The protocol's nodes and the node's service are the same machine: both change what a node runs by
    the same few moves. */
module Refinement {
  import opened Options
  import N = Node
  import T = NodeTheorems
  import P = Protocol

  /** What the protocol knows of a node: the cluster it belongs to with the quarantine flag, whether
      etcd runs, and the preparation. */
  datatype Face<Token> = Face(cfg: Option<(Token, bool)>, up: bool, prepared: Option<Token>)

  datatype Move<Token> =
    | Flag(flag: bool)
    | Stop
    | Commit(token: Token, quarantined: bool)
    | Prepare(token: Token)
    | Expire
    | Exit
    | Run
    | Crash

  function Moved<Token>(f: Face<Token>, m: Move<Token>): Face<Token> {
    match m
    case Flag(flag) => if f.cfg.Some? then Face(Some((f.cfg.value.0, flag)), true, f.prepared) else f
    case Stop => Face(None, false, f.prepared)
    case Commit(token, q) => Face(Some((token, q)), true, None)
    case Prepare(token) => f.(prepared := Some(token))
    case Expire => f.(prepared := None)
    case Exit => f.(up := false)
    case Run => if f.cfg.Some? then f.(up := true) else f
    case Crash => f.(up := false, prepared := None)
  }

  /** When a machine can make a move. */
  predicate Enabled<Token(==)>(f: Face<Token>, m: Move<Token>) {
    match m
    case Flag(_) => f.cfg.Some?
    case Stop => f.cfg.Some?
    case Commit(token, _) => !f.up && f.prepared == Some(token)
    case Prepare(_) => !f.up && f.prepared == None
    case Run => f.cfg.Some?
    case _ => true
  }

  function ProtocolFace(s: P.Sys, n: P.Node): Face<P.Token> {
    Face(if n in s.cfg then Some((s.cfg[n].token, s.cfg[n].quarantined)) else None,
         n in s.up,
         if n in s.prepared then Some(s.prepared[n]) else None)
  }

  function ServiceFace(n: N.Node): Face<string> {
    Face(if n.state.Some? && n.state.value.cluster.Some?
         then Some((n.state.value.cluster.value.token, n.state.value.quarantined)) else None,
         n.process.Some?,
         if n.prepared.Some? then Some(n.prepared.value.token) else None)
  }

  // The protocol.

  /** The move that a step of the protocol makes at a node, if it makes one. */
  function MoveOf(s: P.Sys, a: P.Action, n: P.Node): Option<Move<P.Token>> {
    match a
    case Locally(local) => LocalMove(local, n)
    case Rpc(e, m, r) =>
      if m != n || e !in s.cycles then None else RequestMove(s.cycles[e], n, r)
    case _ => None
  }

  function LocalMove(a: P.LocalAction, n: P.Node): Option<Move<P.Token>> {
    match a
    case Crash(m) => if m == n then Some(Crash) else None
    case ProcessExit(m) => if m == n then Some(Exit) else None
    case RunOnce(m) => if m == n then Some(Run) else None
    case Expire(m) => if m == n then Some(Expire) else None
    case _ => None
  }

  function RequestMove(c: P.Cycle, n: P.Node, r: P.Request): Option<Move<P.Token>> {
    match r
    case Silence => Some(Flag(true))
    case Resend => Some(Flag(n in c.flagged))
    case Lift => Some(Flag(false))
    case Quarantine => Some(Flag(true))
    case Halt => Some(Stop)
    case Clear => Some(Stop)
    case Prepare => if c.pc.Creating? then Some(Prepare(c.pc.token)) else None
    case Commit => if c.pc.Creating? then Some(Commit(c.pc.token, true)) else None
    case PrepareJoin => if c.obs.Some? then Some(Prepare(c.obs.value)) else None
    case Join => if c.obs.Some? then Some(Commit(c.obs.value, false)) else None
    case _ => None
  }

  lemma LocalStepMoves(env: P.Env, s: P.Sys, a: P.LocalAction, n: P.Node)
    requires P.CanLocally(env, s, a)
    ensures var f := ProtocolFace(s, n);
            match LocalMove(a, n)
            case Some(m) => Enabled(f, m) && ProtocolFace(P.DoLocally(env, s, a), n) == Moved(f, m)
            case None => ProtocolFace(P.DoLocally(env, s, a), n) == f
  {
  }

  lemma RequestStepMoves(s: P.Sys, e: P.Epoch, m: P.Node, r: P.Request, n: P.Node)
    requires P.CanRequest(s, e, m, r)
    ensures var f := ProtocolFace(s, n);
            var f' := ProtocolFace(P.DoRequest(s, e, m, r), n);
            if m != n then f' == f
            else match RequestMove(s.cycles[e], n, r)
                 case Some(move) => Enabled(f, move) && f' == Moved(f, move)
                 case None => f' == f
  {
    hide ProtocolFace, Enabled, Moved, RequestMove, P.DoRequest;
    if m == n { ThisNodeMoves(s, e, n, r); } else { OtherNodesStay(s, e, m, r, n); }
  }

  lemma OtherNodesStay(s: P.Sys, e: P.Epoch, m: P.Node, r: P.Request, n: P.Node)
    requires P.CanRequest(s, e, m, r) && m != n
    ensures ProtocolFace(P.DoRequest(s, e, m, r), n) == ProtocolFace(s, n)
  {
  }

  lemma ThisNodeMoves(s: P.Sys, e: P.Epoch, n: P.Node, r: P.Request)
    requires P.CanRequest(s, e, n, r)
    ensures var f := ProtocolFace(s, n);
            var f' := ProtocolFace(P.DoRequest(s, e, n, r), n);
            match RequestMove(s.cycles[e], n, r)
            case Some(move) => Enabled(f, move) && f' == Moved(f, move)
            case None => f' == f
  {
  }

  lemma ControllerStepMoves(env: P.Env, s: P.Sys, a: P.CycleAction, n: P.Node)
    requires P.CanStep(env, s, a)
    ensures ProtocolFace(P.DoStep(env, s, a), n) == ProtocolFace(s, n)
  {
  }

  lemma WriteStepMoves(s: P.Sys, e: P.Epoch, w: P.Write, n: P.Node)
    requires P.CanWrite(s, e, w)
    ensures ProtocolFace(P.DoWrite(s, e, w), n) == ProtocolFace(s, n)
  {
  }

  /** Every step of the protocol moves each node by the move it is named for, which the node can make then,
      or not at all. */
  lemma ProtocolStepMoves(env: P.Env, s: P.Sys, a: P.Action, n: P.Node)
    requires P.Guard(env, s, a)
    ensures var f := ProtocolFace(s, n);
            match MoveOf(s, a, n)
            case Some(m) => Enabled(f, m) && ProtocolFace(P.Apply(env, s, a), n) == Moved(f, m)
            case None => ProtocolFace(P.Apply(env, s, a), n) == f
  {
    hide P.CanLocally, P.CanStep, P.CanWrite, P.DoLocally, P.DoStep, P.DoRequest, P.DoWrite;
    hide ProtocolFace, Moved, Enabled, LocalMove, RequestMove;
    match a {
      case Locally(local) => LocalStepMoves(env, s, local, n);
      case Controller(step) => ControllerStepMoves(env, s, step, n);
      case Rpc(e, m, r) => RequestStepMoves(s, e, m, r, n);
      case Unfenced(e, w) => WriteStepMoves(s, e, w, n);
    }
  }

  // Every move that a node can make is a step of the protocol.

  /** The moves that a node makes by itself. */
  predicate IsOwn<Token>(m: Move<Token>) {
    m.Crash? || m.Exit? || m.Run? || m.Expire?
  }

  function OwnAction<Token>(m: Move<Token>, n: P.Node): P.Action
    requires IsOwn(m)
  {
    P.Locally(match m
              case Crash => P.Crash(n)
              case Exit => P.ProcessExit(n)
              case Run => P.RunOnce(n)
              case Expire => P.Expire(n))
  }

  /** The face of n moves, and no other. */
  ghost predicate MovesOnly(s: P.Sys, s': P.Sys, n: P.Node, m: Move<P.Token>) {
    ProtocolFace(s', n) == Moved(ProtocolFace(s, n), m) && forall o | o != n :: ProtocolFace(s', o) == ProtocolFace(s, o)
  }

  /** What a node can do by itself, crash, lose its etcd, start it again or let a preparation expire, the protocol
      allows exactly then, in every state. */
  lemma OwnMovesAreSteps(env: P.Env, s: P.Sys, n: P.Node, m: Move<P.Token>)
    requires IsOwn(m)
    ensures P.Guard(env, s, OwnAction(m, n)) <==> Enabled(ProtocolFace(s, n), m)
    ensures Enabled(ProtocolFace(s, n), m) ==> MovesOnly(s, P.Apply(env, s, OwnAction(m, n)), n, m)
  {
    var a := OwnAction(m, n);
    OwnGuards(env, s, n, m);
    if P.Guard(env, s, a) {
      hide P.CanLocally, P.DoLocally, ProtocolFace, Moved, Enabled;
      forall o ensures o != n ==> ProtocolFace(P.Apply(env, s, a), o) == ProtocolFace(s, o) { LocalStepMoves(env, s, a.local, o); }
      LocalStepMoves(env, s, a.local, n);
    }
  }

  lemma OwnGuards(env: P.Env, s: P.Sys, n: P.Node, m: Move<P.Token>)
    requires IsOwn(m)
    ensures P.Guard(env, s, OwnAction(m, n)) <==> Enabled(ProtocolFace(s, n), m)
  {
  }

  /** Where a cycle must be to send a request to n; nothing here is about the node. */
  predicate AtPoint(s: P.Sys, e: P.Epoch, n: P.Node, r: P.Request) {
    && e in s.cycles
    && var c := s.cycles[e];
       match r
       case Silence => c.pc == P.Asserting({})
       case Resend => c.pc == P.Surveyed && n !in c.idle
       case Lift => c.pc.Lifting? && P.Observes(s, e) && n in s.clusters[c.obs.value].members
       case Quarantine => c.pc.Quarantining? && n in c.pc.unflagged
       case Halt => c.pc.Halting?
       case Clear => c.pc.Creating? && c.pc.phase == P.Clearing && n in c.pc.todo
       case Prepare => c.pc.Creating? && c.pc.phase == P.Preparing && n in c.pc.todo
       case Commit => c.pc.Creating? && c.pc.phase == P.Forming && n in c.pc.todo
       case PrepareJoin => c.pc.Expanding? && c.pc.stage == P.Inviting && P.Observes(s, e) && n == c.pc.joiner
       case Join => c.pc.Expanding? && c.pc.stage == P.Joining && P.Observes(s, e) && n == c.pc.joiner
       case _ => false
  }

  /** A request that moves a node is obeyed exactly if the node accepted the leader last and has not restarted
      since, the leader is at that point of its cycle, and the node can make the move. */
  lemma RequestsAreSteps(s: P.Sys, e: P.Epoch, n: P.Node, r: P.Request)
    requires AtPoint(s, e, n, r)
    ensures RequestMove(s.cycles[e], n, r).Some?
    ensures P.CanRequest(s, e, n, r) <==> P.Fenced(s, e, n) && Enabled(ProtocolFace(s, n), RequestMove(s.cycles[e], n, r).value)
    ensures P.CanRequest(s, e, n, r) ==> MovesOnly(s, P.DoRequest(s, e, n, r), n, RequestMove(s.cycles[e], n, r).value)
  {
    if P.CanRequest(s, e, n, r) {
      forall o ensures o != n ==> ProtocolFace(P.DoRequest(s, e, n, r), o) == ProtocolFace(s, o) { RequestStepMoves(s, e, n, r, o); }
      RequestStepMoves(s, e, n, r, n);
    }
  }

  /** Nothing else moves a node. */
  lemma OnlyAtPoint(s: P.Sys, e: P.Epoch, n: P.Node, r: P.Request)
    requires P.CanRequest(s, e, n, r) && RequestMove(s.cycles[e], n, r).Some?
    ensures AtPoint(s, e, n, r)
  {
  }

  // The service.

  /** When a call at the service may make a move. */
  predicate Permitted(c: N.Config, n: N.Node, call: N.Call, m: Move<string>) {
    match m
    case Exit => true
    case Run => true
    case Expire => true
    case Crash => call.Restart?
    case _ => call.Rpc? && N.Validated(c, n, call.header) && Asked(n, call.request, m)
  }

  predicate Asked(n: N.Node, r: N.Request, m: Move<string>)
    requires !m.Exit? && !m.Run? && !m.Expire? && !m.Crash?
  {
    match m
    case Flag(flag) => r.Reconfigure? && r.quarantined == flag && ServiceFace(n).cfg.Some?
    case Stop => r.StopEtcd? && ServiceFace(n).cfg.Some?
    case Prepare(token) => r.JoinCluster? && r.phase == N.PREPARE && r.token == token && n.process.None?
    case Commit(token, quarantined) =>
      && r.JoinCluster? && r.token == token && n.process.None? && ServiceFace(n).prepared == Some(token)
      && r.phase == (if quarantined then N.INITIAL_CLUSTER else N.JOIN_EXISTING)
  }

  function MovedAll<Token>(f: Face<Token>, moves: seq<Move<Token>>): Face<Token> {
    if moves == [] then f else Moved(MovedAll(f, moves[..|moves| - 1]), moves[|moves| - 1])
  }

  /** Each of the moves can be made after those before it. */
  predicate AllEnabled<Token(==)>(f: Face<Token>, moves: seq<Move<Token>>) {
    moves == [] ||
    (AllEnabled(f, moves[..|moves| - 1]) && Enabled(MovedAll(f, moves[..|moves| - 1]), moves[|moves| - 1]))
  }

  /** f and g agree, but for a preparation that a failed commit leaves behind. */
  predicate Matches(f: Face<string>, g: Face<string>, call: N.Call, reply: N.Reply) {
    && f.cfg == g.cfg && f.up == g.up
    && (f.prepared == g.prepared || (T.IsCommit(call) && reply == N.Error && g.prepared.None?))
  }

  lemma OneMove<Token>(f: Face<Token>, m: Move<Token>)
    ensures MovedAll(f, [m]) == Moved(f, m) && (AllEnabled(f, [m]) <==> Enabled(f, m))
  {
    assert [m][..0] == [];
  }

  lemma TwoMoves<Token>(f: Face<Token>, m: Move<Token>, k: Move<Token>)
    ensures MovedAll(f, [m, k]) == Moved(Moved(f, m), k)
    ensures AllEnabled(f, [m, k]) <==> Enabled(f, m) && Enabled(Moved(f, m), k)
  {
    assert [m, k][..1] == [m];
    OneMove(f, m);
  }

  /** moves, made one after the other by a machine that can, explain the step from n to n'. */
  predicate Explains(c: N.Config, n: N.Node, call: N.Call, n': N.Node, reply: N.Reply, moves: seq<Move<string>>) {
    && Matches(ServiceFace(n'), MovedAll(ServiceFace(n), moves), call, reply) && AllEnabled(ServiceFace(n), moves)
    && forall i | 0 <= i < |moves| :: Permitted(c, n, call, moves[i])
  }

  function JoinMovesOf(c: N.Config, n: N.Node, r: N.Request, luck: N.Luck): seq<Move<string>>
    requires r.JoinCluster?
  {
    var (n', reply) := N.Join(c, n, r, luck);
    if r.phase == N.PREPARE && reply == N.Ok then
      if n.prepared.Some? then [Expire, Prepare(r.token)] else [Prepare(r.token)]
    else if n'.process != n.process then [Commit(r.token, r.phase == N.INITIAL_CLUSTER)]
    else if n'.state != n.state then [Commit(r.token, r.phase == N.INITIAL_CLUSTER), Exit]
    else if n'.prepared.None? then [Expire] else []
  }

  function ReconfigureMovesOf(c: N.Config, n: N.Node, r: N.Request, luck: N.Luck): seq<Move<string>>
    requires r.Reconfigure?
  {
    var (n', reply) := N.Reconfiguring(c, n, r, luck);
    if reply == N.Ok then [Flag(r.quarantined)] else if n' != n then [Flag(r.quarantined), Exit] else []
  }

  function OwnMovesOf(c: N.Config, n: N.Node, call: N.Call, luck: N.Luck): seq<Move<string>>
    requires !call.Rpc?
  {
    match call
    case Accept(_) => []
    case Restart => [Crash]
    case RunOnce => if N.Tend(c, n, luck).0.process.Some? then [Run] else [Exit]
  }

  /** The moves that a call makes. */
  function MovesOf(c: N.Config, n: N.Node, call: N.Call, luck: N.Luck): seq<Move<string>> {
    if !call.Rpc? then OwnMovesOf(c, n, call, luck)
    else if !N.Validated(c, n, call.header) then []
    else match call.request
      case JoinCluster(_, _, _, _) => JoinMovesOf(c, n, call.request, luck)
      case Reconfigure(_, _, _) => ReconfigureMovesOf(c, n, call.request, luck)
      case StopEtcd => if N.Stopping(c, n, luck).0 != n then [Stop] else []
  }

  lemma JoinMoves(c: N.Config, n: N.Node, h: N.Header, r: N.Request, luck: N.Luck)
    requires T.NoFailedWrite(luck) && N.Validated(c, n, h) && r.JoinCluster?
    ensures var (n', reply) := N.Join(c, n, r, luck);
            Explains(c, n, N.Rpc(h, r), n', reply, JoinMovesOf(c, n, r, luck))
  {
    var f := ServiceFace(n);
    var q := r.phase == N.INITIAL_CLUSTER;
    OneMove(f, Expire);
    OneMove(f, Prepare(r.token));
    OneMove(f, Commit(r.token, q));
    TwoMoves(f, Expire, Prepare(r.token));
    TwoMoves(f, Commit(r.token, q), Exit);
  }

  lemma ReconfigureMoves(c: N.Config, n: N.Node, h: N.Header, r: N.Request, luck: N.Luck)
    requires T.NoFailedWrite(luck) && N.Validated(c, n, h) && r.Reconfigure?
    ensures var (n', reply) := N.Reconfiguring(c, n, r, luck);
            Explains(c, n, N.Rpc(h, r), n', reply, ReconfigureMovesOf(c, n, r, luck))
  {
    OneMove(ServiceFace(n), Flag(r.quarantined));
    TwoMoves(ServiceFace(n), Flag(r.quarantined), Exit);
  }

  lemma StopMoves(c: N.Config, n: N.Node, h: N.Header, luck: N.Luck)
    requires T.NoFailedWrite(luck) && N.Validated(c, n, h)
    ensures var (n', reply) := N.Stopping(c, n, luck);
            Explains(c, n, N.Rpc(h, N.StopEtcd), n', reply, if n' != n then [Stop] else [])
  {
    OneMove(ServiceFace(n), Stop);
  }

  lemma OwnMoves(c: N.Config, n: N.Node, call: N.Call, luck: N.Luck)
    requires T.Synced(n) && T.Agrees(c, n) && !call.Rpc?
    ensures var (n', reply) := N.Step(c, n, call, luck);
            Explains(c, n, call, n', reply, OwnMovesOf(c, n, call, luck))
  {
    OneMove(ServiceFace(n), Crash);
    OneMove(ServiceFace(n), Run);
    OneMove(ServiceFace(n), Exit);
  }

  /** Every call at the service, whatever fails in it except a write of the state file, is a sequence of
      moves of the protocol, and makes only moves the call is entitled to. */
  lemma ServiceStepMoves(c: N.Config, n: N.Node, call: N.Call, luck: N.Luck)
    requires T.NoFailedWrite(luck) && T.Synced(n) && T.Agrees(c, n)
    ensures var (n', reply) := N.Step(c, n, call, luck);
            Explains(c, n, call, n', reply, MovesOf(c, n, call, luck))
  {
    hide N.Join, N.Reconfiguring, N.Stopping, N.Tend, N.Boot, T.Agrees, T.Synced;
    hide JoinMovesOf, ReconfigureMovesOf, OwnMovesOf;
    if call.Rpc? {
      if N.Validated(c, n, call.header) {
        if call.request.JoinCluster? {
          JoinMoves(c, n, call.header, call.request, luck);
        } else if call.request.Reconfigure? {
          ReconfigureMoves(c, n, call.header, call.request, luck);
        } else {
          StopMoves(c, n, call.header, luck);
        }
      }
    } else {
      OwnMoves(c, n, call, luck);
    }
  }
}
