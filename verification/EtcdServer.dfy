/** The node's service: fields updated call by call, each call specified by the steps of module Node. */
module EtcdServers {
  import opened Options
  import opened Node
  import Leadership

  class EtcdServer {
    const config: Config
    const peerServer: Leadership.Server
    var state: Option<State>
    var prepared: Option<Prepared>
    var process: Option<Process>
    var disk: Disk

    /** The fields as one value. */
    function Snapshot(): Node
      reads this, peerServer
    {
      Node(state, prepared, process, disk,
           if peerServer.leadership.Some? then Some(peerServer.leadership.value.token) else None)
    }

    constructor (config: Config, peerServer: Leadership.Server, disk: Disk)
      ensures this.config == config && this.peerServer == peerServer
      ensures state == None && prepared == None && process == None && this.disk == disk
    {
      this.config := config;
      this.peerServer := peerServer;
      state, prepared, process := None, None, None;
      this.disk := disk;
    }

    /** A new manager on the disk of an earlier one: it reads the state file before it serves, and does not
        start at all if the file cannot be read. */
    static method NewEtcdServer(config: Config, peerServer: Leadership.Server, before: Node)
      returns (s: EtcdServer?, r: Reply)
      requires peerServer.leadership.None?
      ensures r == Boot(before).1 && (s != null <==> r == Ok)
      ensures s != null ==> fresh(s) && s.config == config && s.peerServer == peerServer && s.Snapshot() == Boot(before).0
    {
      var server := new EtcdServer(config, peerServer, before.disk);
      r := server.InitState();
      if r != Ok {
        return null, r;
      }
      return server, r;
    }

    method InitState() returns (r: Reply)
      modifies this
      ensures (Snapshot(), r) == Init(old(Snapshot()))
    {
      if state.None? {
        match disk {
          case Missing =>
          case Corrupt => return Error;
          case Holds(s) => state := Some(s);
        }
      }
      return Ok;
    }

    method WriteState(s: State, w: Write) returns (ok: bool)
      modifies this`disk
      ensures disk == (if w.Written? then Holds(s) else w.left) && ok == w.Written?
    {
      match w {
        case Written => disk := Holds(s);
        case Fails(left) => disk := left;
      }
      return w.Written?;
    }

    method ValidateHeader(h: Header) returns (ok: bool)
      ensures ok <==> Validated(config, Snapshot(), h)
    {
      if h.clusterName != config.clusterName {
        return false;
      }
      ok := peerServer.IsLeader(h.leadershipToken);
    }

    /** The node's own entry in a list of members, if it is there exactly once; otherwise the first
        result says whether it is there more often. */
    method FindSelfNode(nodes: seq<Member>) returns (several: bool, me: Option<Member>)
      ensures several <==> |Selves(nodes, config.name)| > 1
      ensures me.Some? <==> |Selves(nodes, config.name)| == 1
      ensures me.Some? ==> me.value == Selves(nodes, config.name)[0]
    {
      me := None;
      for i := 0 to |nodes|
        invariant |Selves(nodes[..i], config.name)| <= 1
        invariant me.Some? <==> |Selves(nodes[..i], config.name)| == 1
        invariant me.Some? ==> me.value == Selves(nodes[..i], config.name)[0]
      {
        assert nodes[..i + 1][..i] == nodes[..i];
        if nodes[i].name == config.name {
          if me.Some? {
            SelvesGrow(nodes, i + 1, config.name);
            return true, None;
          }
          me := Some(nodes[i]);
        }
      }
      assert nodes[..|nodes|] == nodes;
      return false, me;
    }

    method StartEtcdProcess(s: State, luck: Luck) returns (r: Reply)
      requires process.None?
      modifies this`process
      ensures Snapshot() == Starting(config, old(Snapshot()), s, luck)
      ensures r == if process.Some? then Ok else Error
    {
      if s.cluster.None? {
        return Error;
      }
      if s.cluster.value.token == "" {
        return Error;
      }
      if !config.safe(s.cluster.value.token) {
        return Error;
      }
      var several, me := FindSelfNode(s.cluster.value.nodes);
      if several {
        return Error;
      }
      if me.None? {
        return Error;
      }
      if !config.supported(s.version) {
        return Error;
      }
      if !luck.starts {
        return Error;
      }
      process := Some(Process(s.cluster.value, s.quarantined, s.version, me.value.tlsEnabled, s.newCluster));
      return Ok;
    }

    method StopEtcdProcess(luck: Luck) returns (r: Reply)
      modifies this`process
      ensures r == if old(process).Some? && !luck.stops then Error else Ok
      ensures process == if r == Ok then None else old(process)
    {
      if process.None? {
        return Ok;
      }
      if !luck.stops {
        return Error;
      }
      process := None;
      return Ok;
    }

    method CancelPrepare(token: string) returns (r: Reply)
      modifies this`prepared
      ensures (Snapshot(), r) == Cancel(old(Snapshot()), token)
    {
      if prepared.None? {
        return Ok;
      }
      if prepared.value.token == token {
        prepared := None;
        return Ok;
      }
      return Error;
    }

    method CommitJoin(r: Request, luck: Luck) returns (reply: Reply)
      requires r.JoinCluster? && r.phase in {INITIAL_CLUSTER, JOIN_EXISTING}
      modifies this
      ensures (Snapshot(), reply) == Commit(config, old(Snapshot()), r, luck)
    {
      if process.Some? {
        return Error;
      }
      if prepared.None? {
        return Error;
      }
      if prepared.value.token != r.token {
        return Error;
      }
      var s := State(r.phase == INITIAL_CLUSTER, Some(Cluster(r.token, r.nodes)), r.phase == INITIAL_CLUSTER, r.version);
      state := Some(s);
      var ok := WriteState(s, luck.write);
      if !ok {
        return Error;
      }
      var started := StartEtcdProcess(s, luck);
      if started != Ok {
        return Error;
      }
      if r.phase == INITIAL_CLUSTER {
        state := Some(s.(newCluster := false));
        ok := WriteState(s.(newCluster := false), luck.rewrite);
        if !ok {
          return Error;
        }
      }
      prepared := None;
      return Ok;
    }

    method JoinCluster(h: Header, r: Request, luck: Luck) returns (reply: Reply)
      requires r.JoinCluster?
      modifies this
      ensures (Snapshot(), reply) == Step(config, old(Snapshot()), Rpc(h, r), luck)
    {
      var ok := ValidateHeader(h);
      if !ok {
        return Error;
      }
      if r.phase == CANCEL_PREPARE {
        reply := CancelPrepare(r.token);
        return;
      }
      if prepared.Some? && luck.now > prepared.value.validUntil {
        prepared := None;
      }
      if !config.supported(r.version) {
        return Error;
      }
      match r.phase {
        case PREPARE =>
          if process.Some? {
            return Error;
          }
          if prepared.Some? {
            return Error;
          }
          prepared := Some(Prepared(luck.later + PREPARED_VALIDITY, r.token));
          return Ok;
        case INITIAL_CLUSTER =>
          reply := CommitJoin(r, luck);
        case JOIN_EXISTING =>
          reply := CommitJoin(r, luck);
        case _ =>
          return Error;
      }
    }

    method Reconfigure(h: Header, r: Request, luck: Luck) returns (reply: Reply)
      requires r.Reconfigure?
      modifies this
      ensures (Snapshot(), reply) == Step(config, old(Snapshot()), Rpc(h, r), luck)
    {
      var ok := ValidateHeader(h);
      if !ok {
        return Error;
      }
      if state.None? {
        return Error;
      }
      var s := state.value;
      if s.cluster.None? {
        return Panic;
      }
      var several, me := FindSelfNode(s.cluster.value.nodes);
      if several || me.None? {
        return Error;
      }
      if r.setVersion != "" {
        if !config.supported(r.setVersion) {
          return Error;
        }
        s := s.(version := r.setVersion);
      }
      s := s.(quarantined := r.quarantined);
      if r.enableTls {
        s := s.(cluster := Some(s.cluster.value.(nodes := EnableTls(s.cluster.value.nodes, config.name))));
      }
      reply := StopEtcdProcess(luck);
      if reply != Ok {
        return;
      }
      state := Some(s);
      ok := WriteState(s, luck.write);
      if !ok {
        return Error;
      }
      reply := StartEtcdProcess(s, luck);
    }

    method StopEtcd(h: Header, luck: Luck) returns (reply: Reply)
      modifies this
      ensures (Snapshot(), reply) == Step(config, old(Snapshot()), Rpc(h, Request.StopEtcd), luck)
    {
      var ok := ValidateHeader(h);
      if !ok {
        return Error;
      }
      if state.None? {
        return Error;
      }
      if state.value.cluster.None? {
        return Panic;
      }
      var token := state.value.cluster.value.token;
      reply := StopEtcdProcess(luck);
      if reply != Ok {
        return;
      }
      state := Some(EMPTY);
      ok := WriteState(EMPTY, luck.write);
      if !ok {
        return Error;
      }
      if !config.safe(token) {
        return Error;
      }
    }

    method RunOnce(luck: Luck) returns (reply: Reply)
      modifies this
      ensures (Snapshot(), reply) == Step(config, old(Snapshot()), Call.RunOnce, luck)
    {
      reply := InitState();
      if reply != Ok {
        return;
      }
      if process.Some? && luck.exited {
        process := None;
      }
      if state.Some? && state.value.cluster.Some? && process.None? {
        reply := StartEtcdProcess(state.value, luck);
      }
    }

    /** What the controller is told: the state only if there is a cluster in it. */
    method GetInfo() returns (info: Option<State>)
      ensures info.Some? ==> info == state && info.value.cluster.Some?
      ensures info.None? ==> state.None? || state.value.cluster.None?
    {
      if state.Some? && state.value.cluster.Some? {
        return state;
      }
      return None;
    }

    /** A leadership bid at this node: an acceptance is the step that moves the fence, and nothing else
        of the node changes. */
    method LeaderNotification(view: Option<Leadership.View>, now: int) returns (r: Leadership.Reply)
      requires peerServer.Valid()
      modifies peerServer
      ensures peerServer.Valid()
      ensures r.Accepted? <==> Leadership.Accepts(old(peerServer.peers), view, now)
      ensures Snapshot() == if r.Accepted?
                            then Step(config, old(Snapshot()), Accept(view.value.token), Luck(now, now, Written, Written, true, true, false)).0
                            else old(Snapshot())
    {
      r := peerServer.LeaderNotification(view, now);
    }
  }

  lemma {:induction false} SelvesGrow(nodes: seq<Member>, i: nat, name: string)
    requires i <= |nodes|
    ensures |Selves(nodes[..i], name)| <= |Selves(nodes, name)|
    decreases |nodes|
  {
    if i < |nodes| {
      var m := |nodes| - 1;
      SelvesGrow(nodes[..m], i, name);
      assert nodes[..m][..i] == nodes[..i];
    } else {
      assert nodes[..i] == nodes;
    }
  }
}
