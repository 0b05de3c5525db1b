/** What one node of the cluster manager holds, and how each call changes it. */
module Node {
  import opened Options

  const MINUTE: int := 60 * 1000000000
  const PREPARED_VALIDITY: int := MINUTE

  datatype Member = Member(name: string, tlsEnabled: bool)

  datatype Cluster = Cluster(token: string, nodes: seq<Member>)

  /** What the node should be running; this is what the state file holds. */
  datatype State = State(newCluster: bool, cluster: Option<Cluster>, quarantined: bool, version: string)

  const EMPTY := State(false, None, false, "")

  /** The state file. A write that fails can leave anything. */
  datatype Disk = Missing | Corrupt | Holds(state: State)

  datatype Prepared = Prepared(validUntil: int, token: string)

  /** A running etcd. */
  datatype Process = Process(cluster: Cluster, quarantined: bool, version: string, tls: bool, createNew: bool)

  datatype Node = Node(
    state: Option<State>, prepared: Option<Prepared>, process: Option<Process>, disk: Disk, leader: Option<string>)

  /** Fixed facts about a node: its names, the etcd versions it has, and the tokens that are safe as
      directory names. */
  datatype Config = Config(clusterName: string, name: string, supported: string -> bool, safe: string -> bool)

  datatype Header = Header(clusterName: string, leadershipToken: string)

  datatype Phase = PREPARE | INITIAL_CLUSTER | JOIN_EXISTING | CANCEL_PREPARE | UNKNOWN

  datatype Request =
    | JoinCluster(phase: Phase, token: string, version: string, nodes: seq<Member>)
    | Reconfigure(quarantined: bool, setVersion: string, enableTls: bool)
    | StopEtcd

  datatype Call =
    | Rpc(header: Header, request: Request)
    | Accept(token: string)
    | RunOnce
    | Restart

  datatype Write = Written | Fails(left: Disk)

  /** How the clock, the disk and the etcd process behave during one call. */
  datatype Luck = Luck(now: int, later: int, write: Write, rewrite: Write, starts: bool, stops: bool, exited: bool)

  datatype Reply = Ok | Error | Panic

  // Starting and stopping etcd.

  function Selves(nodes: seq<Member>, name: string): seq<Member> {
    if nodes == [] then []
    else Selves(nodes[..|nodes| - 1], name) + if nodes[|nodes| - 1].name == name then [nodes[|nodes| - 1]] else []
  }

  predicate Startable(c: Config, s: State) {
    && s.cluster.Some? && s.cluster.value.token != "" && c.safe(s.cluster.value.token)
    && |Selves(s.cluster.value.nodes, c.name)| == 1
    && c.supported(s.version)
  }

  function Started(c: Config, s: State): Process
    requires Startable(c, s)
  {
    Process(s.cluster.value, s.quarantined, s.version, Selves(s.cluster.value.nodes, c.name)[0].tlsEnabled, s.newCluster)
  }

  function Starting(c: Config, n: Node, s: State, luck: Luck): Node {
    if Startable(c, s) && luck.starts then n.(process := Some(Started(c, s))) else n
  }

  function Saved(n: Node, s: State, w: Write): Node {
    n.(state := Some(s), disk := if w.Written? then Holds(s) else w.left)
  }

  // The calls.

  predicate Validated(c: Config, n: Node, h: Header) {
    h.clusterName == c.clusterName && n.leader == Some(h.leadershipToken)
  }

  function Cancel(n: Node, token: string): (Node, Reply) {
    if n.prepared.None? then (n, Ok)
    else if n.prepared.value.token == token then (n.(prepared := None), Ok)
    else (n, Error)
  }

  function Expire(n: Node, now: int): Node {
    if n.prepared.Some? && now > n.prepared.value.validUntil then n.(prepared := None) else n
  }

  function Prepare(n: Node, token: string, later: int): (Node, Reply) {
    if n.process.Some? || n.prepared.Some? then (n, Error)
    else (n.(prepared := Some(Prepared(later + PREPARED_VALIDITY, token))), Ok)
  }

  function Target(r: Request): State
    requires r.JoinCluster?
  {
    State(r.phase == INITIAL_CLUSTER, Some(Cluster(r.token, r.nodes)), r.phase == INITIAL_CLUSTER, r.version)
  }

  function Commit(c: Config, n: Node, r: Request, luck: Luck): (Node, Reply)
    requires r.JoinCluster?
  {
    if n.process.Some? || n.prepared.None? || n.prepared.value.token != r.token then (n, Error) else
    var s := Target(r);
    var saved := Saved(n, s, luck.write);
    if luck.write.Fails? then (saved, Error) else
    var started := Starting(c, saved, s, luck);
    if started.process.None? then (started, Error)
    else if r.phase == JOIN_EXISTING then (started.(prepared := None), Ok) else
    var marked := Saved(started, s.(newCluster := false), luck.rewrite);
    if luck.rewrite.Fails? then (marked, Error) else (marked.(prepared := None), Ok)
  }

  function Join(c: Config, n: Node, r: Request, luck: Luck): (Node, Reply)
    requires r.JoinCluster?
  {
    if r.phase == CANCEL_PREPARE then Cancel(n, r.token) else
    var n := Expire(n, luck.now);
    if !c.supported(r.version) then (n, Error)
    else match r.phase
      case PREPARE => Prepare(n, r.token, luck.later)
      case UNKNOWN => (n, Error)
      case _ => Commit(c, n, r, luck)
  }

  function EnableTls(nodes: seq<Member>, name: string): seq<Member> {
    seq(|nodes|, i requires 0 <= i < |nodes| => if nodes[i].name == name then nodes[i].(tlsEnabled := true) else nodes[i])
  }

  function Reconfigured(c: Config, s: State, r: Request): State
    requires r.Reconfigure? && s.cluster.Some?
  {
    s.(quarantined := r.quarantined,
       version := if r.setVersion != "" then r.setVersion else s.version,
       cluster := if r.enableTls then Some(s.cluster.value.(nodes := EnableTls(s.cluster.value.nodes, c.name))) else s.cluster)
  }

  function Reconfiguring(c: Config, n: Node, r: Request, luck: Luck): (Node, Reply)
    requires r.Reconfigure?
  {
    if n.state.None? then (n, Error)
    else if n.state.value.cluster.None? then (n, Panic)
    else if |Selves(n.state.value.cluster.value.nodes, c.name)| != 1 then (n, Error)
    else if r.setVersion != "" && !c.supported(r.setVersion) then (n, Error)
    else if n.process.Some? && !luck.stops then (n, Error) else
    var s := Reconfigured(c, n.state.value, r);
    var saved := Saved(n.(process := None), s, luck.write);
    if luck.write.Fails? then (saved, Error) else
    var started := Starting(c, saved, s, luck);
    (started, if started.process.Some? then Ok else Error)
  }

  function Stopping(c: Config, n: Node, luck: Luck): (Node, Reply) {
    if n.state.None? then (n, Error)
    else if n.state.value.cluster.None? then (n, Panic)
    else if n.process.Some? && !luck.stops then (n, Error) else
    var saved := Saved(n.(process := None), EMPTY, luck.write);
    (saved, if luck.write.Written? && c.safe(n.state.value.cluster.value.token) then Ok else Error)
  }

  function Handle(c: Config, n: Node, r: Request, luck: Luck): (Node, Reply) {
    match r
    case JoinCluster(_, _, _, _) => Join(c, n, r, luck)
    case Reconfigure(_, _, _) => Reconfiguring(c, n, r, luck)
    case StopEtcd => Stopping(c, n, luck)
  }

  /** Reads the state file, unless the state is known. */
  function Init(n: Node): (Node, Reply) {
    if n.state.Some? || n.disk.Missing? then (n, Ok)
    else if n.disk.Corrupt? then (n, Error)
    else (n.(state := Some(n.disk.state)), Ok)
  }

  function Tend(c: Config, n: Node, luck: Luck): (Node, Reply) {
    var (n, r) := Init(n);
    if r != Ok then (n, r) else
    var n := if luck.exited then n.(process := None) else n;
    if n.state.Some? && n.state.value.cluster.Some? && n.process.None? then
      var started := Starting(c, n, n.state.value, luck);
      (started, if started.process.Some? then Ok else Error)
    else (n, Ok)
  }

  /** A crash of the manager takes its etcd with it; the new one reads the state file first. */
  function Boot(n: Node): (Node, Reply) {
    Init(Node(None, None, None, n.disk, None))
  }

  function Step(c: Config, n: Node, call: Call, luck: Luck): (Node, Reply) {
    match call
    case Rpc(h, r) => if Validated(c, n, h) then Handle(c, n, r, luck) else (n, Error)
    case Accept(token) => (n.(leader := Some(token)), Ok)
    case RunOnce => Tend(c, n, luck)
    case Restart => Boot(n)
  }
}
