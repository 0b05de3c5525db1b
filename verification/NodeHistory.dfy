/** Where the state of a node comes from: which requests set the cluster, the version, the quarantine, and
    whether etcd starts as a new cluster, over every sequence of calls, failures, crashes and restarts. */
module NodeHistory {
  import opened Options
  import opened Node
  import opened NodeTheorems

  // ---------------------------------------------------------------- requests that take effect

  /** A commit gets past its tests: it sets the state. */
  predicate Took(c: Config, n: Node, call: Call, luck: Luck) {
    && IsCommit(call) && Validated(c, n, call.header) && c.supported(call.request.version)
    && n.process.None? && n.prepared.Some? && luck.now <= n.prepared.value.validUntil
    && n.prepared.value.token == call.request.token
  }

  predicate HasCluster(n: Node) {
    n.state.Some? && n.state.value.cluster.Some?
  }

  /** The etcd process, if there is one, can be stopped. */
  predicate CanHalt(n: Node, luck: Luck) {
    n.process.None? || luck.stops
  }

  ghost predicate Retook(c: Config, n: Node, call: Call, luck: Luck) {
    && call.Rpc? && call.request.Reconfigure? && Validated(c, n, call.header)
    && HasCluster(n) && OnlyOnce(n.state.value.cluster.value.nodes, c.name)
    && (call.request.setVersion == "" || c.supported(call.request.setVersion)) && CanHalt(n, luck)
  }

  predicate StopTook(c: Config, n: Node, call: Call, luck: Luck) {
    call.Rpc? && call.request.StopEtcd? && Validated(c, n, call.header) && HasCluster(n) && CanHalt(n, luck)
  }

  /** Exactly one of the members has the name. */
  ghost predicate OnlyOnce(nodes: seq<Member>, name: string) {
    exists i :: IsSelf(nodes, name, i)
  }

  predicate IsSelf(nodes: seq<Member>, name: string, i: int) {
    0 <= i < |nodes| && nodes[i].name == name && forall j | 0 <= j < |nodes| && j != i :: nodes[j].name != name
  }

  lemma {:induction false} NoSelf(nodes: seq<Member>, name: string)
    ensures Selves(nodes, name) == [] <==> forall j | 0 <= j < |nodes| :: nodes[j].name != name
  {
    if nodes != [] {
      var k := |nodes| - 1;
      NoSelf(nodes[..k], name);
      assert forall j | 0 <= j < k :: nodes[..k][j] == nodes[j];
    }
  }

  lemma {:induction false} SelfIsUnique(nodes: seq<Member>, name: string)
    ensures |Selves(nodes, name)| == 1 <==> OnlyOnce(nodes, name)
    ensures forall i | IsSelf(nodes, name, i) :: Selves(nodes, name) == [nodes[i]]
  {
    if nodes != [] {
      var k := |nodes| - 1;
      var init := nodes[..k];
      assert forall j | 0 <= j < k :: init[j] == nodes[j];
      SelfIsUnique(init, name);
      NoSelf(init, name);
      if nodes[k].name == name {
        if Selves(init, name) == [] { assert IsSelf(nodes, name, k); }
        assert |Selves(nodes, name)| == |Selves(init, name)| + 1;
      } else {
        forall i | IsSelf(nodes, name, i) ensures IsSelf(init, name, i) {}
        forall i | IsSelf(init, name, i) ensures IsSelf(nodes, name, i) {}
        assert Selves(nodes, name) == Selves(init, name);
      }
    } else {
      assert !OnlyOnce(nodes, name);
    }
  }

  // ---------------------------------------------------------------- one successful request

  /** etcd can be started with these members, this token and this version. */
  ghost predicate CanStart(c: Config, token: string, nodes: seq<Member>, version: string) {
    token != "" && c.safe(token) && OnlyOnce(nodes, c.name) && c.supported(version)
  }

  /** When each request succeeds. */
  lemma WhenOk(c: Config, n: Node, h: Header, r: Request, luck: Luck)
    ensures var call := Rpc(h, r);
            Step(c, n, call, luck).1 == Ok <==>
            && h.clusterName == c.clusterName && n.leader == Some(h.leadershipToken)
            && match r
               case JoinCluster(PREPARE, _, version, _) =>
                 c.supported(version) && n.process.None? && (n.prepared.Some? ==> luck.now > n.prepared.value.validUntil)
               case JoinCluster(CANCEL_PREPARE, token, _, _) => n.prepared.Some? ==> n.prepared.value.token == token
               case JoinCluster(UNKNOWN, _, _, _) => false
               case JoinCluster(phase, token, version, nodes) =>
                 && Took(c, n, call, luck) && CanStart(c, token, nodes, version)
                 && luck.write.Written? && luck.starts && (phase == INITIAL_CLUSTER ==> luck.rewrite.Written?)
               case Reconfigure(_, setVersion, _) =>
                 && Retook(c, n, call, luck) && luck.write.Written? && luck.starts
                 && var s := n.state.value;
                    CanStart(c, s.cluster.value.token, s.cluster.value.nodes, if setVersion == "" then s.version else setVersion)
               case StopEtcd => StopTook(c, n, call, luck) && luck.write.Written? && c.safe(n.state.value.cluster.value.token)
  {
    if r.JoinCluster? { SelfIsUnique(r.nodes, c.name); }
    if r.Reconfigure? && HasCluster(n) {
      var nodes := n.state.value.cluster.value.nodes;
      SelfIsUnique(nodes, c.name);
      SelfIsUnique(EnableTls(nodes, c.name), c.name);
      assert forall i | IsSelf(nodes, c.name, i) :: IsSelf(EnableTls(nodes, c.name), c.name, i);
    }
  }

  /** The node's own loop reads the file if it has no state, keeps an etcd that runs, drops one that exited, and
      starts etcd for a state with a cluster whenever it can. */
  lemma WhenTended(c: Config, n: Node, luck: Luck)
    ensures var (n', reply) := Step(c, n, RunOnce, luck);
            var s := if n.state.None? && n.disk.Holds? then Some(n.disk.state) else n.state;
            var runs := n.process.Some? && !luck.exited;
            && n'.disk == n.disk && n'.prepared == n.prepared && n'.leader == n.leader
            && (n.state.None? && n.disk.Corrupt? ==> n' == n && reply == Error)
            && (!(n.state.None? && n.disk.Corrupt?) ==>
                 && n'.state == s && (runs ==> n'.process == n.process && reply == Ok)
                 && (!runs && (s.None? || s.value.cluster.None?) ==> n'.process == None && reply == Ok)
                 && (!runs && s.Some? && s.value.cluster.Some? ==>
                       && (n'.process.Some? <==> luck.starts && CanStart(c, s.value.cluster.value.token, s.value.cluster.value.nodes, s.value.version))
                       && (n'.process.Some? ==> n'.process.value.createNew == s.value.newCluster) && (reply == Ok <==> n'.process.Some?)))
  {
    if n.state.Some? && n.state.value.cluster.Some? { SelfIsUnique(n.state.value.cluster.value.nodes, c.name); }
    if n.disk.Holds? && n.disk.state.cluster.Some? { SelfIsUnique(n.disk.state.cluster.value.nodes, c.name); }
  }

  /** A restart keeps nothing but what it reads from the file. */
  lemma WhenRestarted(c: Config, n: Node, luck: Luck)
    ensures var (n', reply) := Step(c, n, Restart, luck);
            && n'.process.None? && n'.prepared.None? && n'.leader.None? && n'.disk == n.disk
            && n'.state == (if n.disk.Holds? then Some(n.disk.state) else None) && (reply == Ok <==> !n.disk.Corrupt?)
  {
  }

  /** A successful commit: the node runs the cluster, the version and the members it was given, as a new cluster
      and in quarantine exactly in the phase for one; state and file say the same, and that it is not new any
      more. */
  lemma SuccessfulCommit(c: Config, n: Node, call: Call, luck: Luck)
    requires IsCommit(call) && Step(c, n, call, luck).1 == Ok
    ensures var r, n' := call.request, Step(c, n, call, luck).0;
            var initial := r.phase == INITIAL_CLUSTER;
            && n'.state == Some(State(false, Some(Cluster(r.token, r.nodes)), initial, r.version))
            && n'.disk == Holds(n'.state.value) && n'.prepared.None?
            && exists i :: IsSelf(r.nodes, c.name, i) &&
                 n'.process == Some(Process(Cluster(r.token, r.nodes), initial, r.version, r.nodes[i].tlsEnabled, initial))
  {
    SelfIsUnique(call.request.nodes, c.name);
  }

  /** A successful reconfiguration: the node runs with the requested quarantine and, if one was requested, the
      requested version; its own entry has TLS exactly if asked now or on before; the token and all other
      entries are as they were, and state, file and process say the same. */
  lemma SuccessfulReconfigure(c: Config, n: Node, call: Call, luck: Luck)
    requires call.Rpc? && call.request.Reconfigure? && Step(c, n, call, luck).1 == Ok
    ensures HasCluster(n) && HasCluster(Step(c, n, call, luck).0) && Step(c, n, call, luck).0.process.Some?
    ensures var r, n' := call.request, Step(c, n, call, luck).0;
            var s, s', p := n.state.value, n'.state.value, n'.process.value;
            && n'.disk == Holds(s') && s'.quarantined == r.quarantined == p.quarantined
            && s'.version == (if r.setVersion == "" then s.version else r.setVersion) && p.version == s'.version
            && p.cluster == s'.cluster.value && SameEntries(c, s.cluster.value, s'.cluster.value, r.enableTls)
            && exists i :: IsSelf(s.cluster.value.nodes, c.name, i) && p.tls == (r.enableTls || s.cluster.value.nodes[i].tlsEnabled)
  {
    var nodes := n.state.value.cluster.value.nodes;
    SelfIsUnique(nodes, c.name);
    var i :| IsSelf(nodes, c.name, i);
    var nodes' := Step(c, n, call, luck).0.state.value.cluster.value.nodes;
    SelfIsUnique(nodes', c.name);
    assert IsSelf(nodes', c.name, i);
  }

  /** The token and the entries are the same, but that the node's own one may have got TLS. */
  predicate SameEntries(c: Config, a: Cluster, b: Cluster, tls: bool) {
    && b.token == a.token && |b.nodes| == |a.nodes|
    && forall i | 0 <= i < |a.nodes| ::
         b.nodes[i] == if tls && a.nodes[i].name == c.name then Member(a.nodes[i].name, true) else a.nodes[i]
  }

  // ---------------------------------------------------------------- what the last request set

  predicate TookAt(c: Config, n: Node, events: seq<Event>, k: nat) {
    k < |events| && Took(c, Before(c, n, events, k), events[k].call, events[k].luck)
  }

  ghost predicate RetookAt(c: Config, n: Node, events: seq<Event>, k: nat) {
    k < |events| && Retook(c, Before(c, n, events, k), events[k].call, events[k].luck)
  }

  predicate StopTookAt(c: Config, n: Node, events: seq<Event>, k: nat) {
    k < |events| && StopTook(c, Before(c, n, events, k), events[k].call, events[k].luck)
  }

  /** The state changes only by a request that gets past its tests, and when it is read from the file. */
  lemma StateStep(c: Config, n: Node, call: Call, luck: Luck)
    ensures var n' := Step(c, n, call, luck).0;
            && (Took(c, n, call, luck) ==>
                  && IsCommit(call) && HasCluster(n') && n'.state.value.version == call.request.version
                  && n'.state.value.quarantined == (call.request.phase == INITIAL_CLUSTER))
            && (Retook(c, n, call, luck) ==>
                  && call.request.Reconfigure? && HasCluster(n') && n'.state.value.quarantined == call.request.quarantined
                  && n'.state.value.version == if call.request.setVersion == "" then n.state.value.version else call.request.setVersion)
            && (StopTook(c, n, call, luck) ==> n'.state == Some(EMPTY))
            && (call.Restart? && Synced(n) ==> n'.state == n.state)
    ensures !Took(c, n, call, luck) && !Retook(c, n, call, luck) && !StopTook(c, n, call, luck) && !call.Restart? && n.state.Some? ==>
              Step(c, n, call, luck).0.state == n.state
  {
    if HasCluster(n) { SelfIsUnique(n.state.value.cluster.value.nodes, c.name); }
  }

  /** No request sets the state between i and k, and no restart finds the file behind it. */
  ghost predicate Undisturbed(c: Config, n: Node, events: seq<Event>, i: nat, k: nat) {
    && k <= |events|
    && forall j | i <= j < k ::
         && !TookAt(c, n, events, j) && !StopTookAt(c, n, events, j)
         && (events[j].call.Restart? ==> Synced(Before(c, n, events, j)))
  }

  /** The version of the state is the one that the last commit or reconfiguration set that set one. */
  lemma {:induction false} VersionIsLastSet(c: Config, n: Node, events: seq<Event>, i: nat, k: nat)
    requires i < k && Undisturbed(c, n, events, i + 1, k)
    requires TookAt(c, n, events, i) || (RetookAt(c, n, events, i) && events[i].call.request.setVersion != "")
    requires forall j | i < j < k :: RetookAt(c, n, events, j) ==> events[j].call.request.setVersion == ""
    ensures HasCluster(Before(c, n, events, k))
    ensures Before(c, n, events, k).state.value.version ==
            if events[i].call.request.JoinCluster? then events[i].call.request.version else events[i].call.request.setVersion
  {
    var m := k - 1;
    BeforeNext(c, n, events, m);
    if m > i { VersionIsLastSet(c, n, events, i, m); }
    hide Step, Took, Retook, StopTook, Before;
    StateStep(c, Before(c, n, events, m), events[m].call, events[m].luck);
  }

  /** The quarantine of the state is the one that the last commit or reconfiguration set. */
  lemma {:induction false} FlagIsLastSet(c: Config, n: Node, events: seq<Event>, i: nat, k: nat)
    requires i < k && Undisturbed(c, n, events, i + 1, k) && (TookAt(c, n, events, i) || RetookAt(c, n, events, i))
    requires forall j | i < j < k :: !RetookAt(c, n, events, j)
    ensures HasCluster(Before(c, n, events, k))
    ensures Before(c, n, events, k).state.value.quarantined ==
            if events[i].call.request.JoinCluster? then events[i].call.request.phase == INITIAL_CLUSTER
            else events[i].call.request.quarantined
  {
    var m := k - 1;
    BeforeNext(c, n, events, m);
    if m > i { FlagIsLastSet(c, n, events, i, m); }
    hide Step, Took, Retook, StopTook, Before;
    StateStep(c, Before(c, n, events, m), events[m].call, events[m].luck);
    if m > i {
      assert !RetookAt(c, n, events, m) && !TookAt(c, n, events, m);
    }
  }

  /** Some reconfiguration from i on, before k, was to enable TLS. */
  ghost predicate TlsAsked(c: Config, n: Node, events: seq<Event>, i: nat, k: nat) {
    exists j: nat :: i <= j < k && RetookAt(c, n, events, j) && events[j].call.request.enableTls
  }

  /** The cluster of the state is the one that the last commit was given, with TLS at the node's own entry
      exactly if it was given so or a reconfiguration asked for it since. */
  lemma {:induction false} ClusterIsLastCommitted(c: Config, n: Node, events: seq<Event>, i: nat, k: nat)
    requires i < k && Undisturbed(c, n, events, i + 1, k) && TookAt(c, n, events, i)
    ensures var r := events[i].call.request;
            && HasCluster(Before(c, n, events, k))
            && SameEntries(c, Cluster(r.token, r.nodes), Before(c, n, events, k).state.value.cluster.value, TlsAsked(c, n, events, i + 1, k))
  {
    var m := k - 1;
    BeforeNext(c, n, events, m);
    if m > i {
      ClusterIsLastCommitted(c, n, events, i, m);
      TlsNext(c, n, events, i + 1, m);
      hide TlsAsked;
      assert !TookAt(c, n, events, m);
    }
    hide Step, Took, Retook, StopTook, Before;
    StateStep(c, Before(c, n, events, m), events[m].call, events[m].luck);
    ClusterStep(c, Before(c, n, events, m), events[m].call, events[m].luck);
  }

  lemma TlsNext(c: Config, n: Node, events: seq<Event>, i: nat, m: nat)
    requires i <= m
    ensures TlsAsked(c, n, events, i, m + 1) <==>
            TlsAsked(c, n, events, i, m) || (RetookAt(c, n, events, m) && events[m].call.request.enableTls)
  {
    if RetookAt(c, n, events, m) && events[m].call.request.enableTls { assert TlsAsked(c, n, events, i, m + 1); }
  }

  lemma ClusterStep(c: Config, n: Node, call: Call, luck: Luck)
    ensures var n' := Step(c, n, call, luck).0;
            && (Took(c, n, call, luck) ==> HasCluster(n') && n'.state.value.cluster.value == Cluster(call.request.token, call.request.nodes))
            && (Retook(c, n, call, luck) ==>
                  HasCluster(n') && HasCluster(n) && SameEntries(c, n.state.value.cluster.value, n'.state.value.cluster.value, call.request.enableTls))
  {
    if HasCluster(n) { SelfIsUnique(n.state.value.cluster.value.nodes, c.name); }
  }

  /** Without failed writes no restart finds the file behind. */
  lemma {:induction false} WritesKeepUp(c: Config, n: Node, events: seq<Event>, i: nat, j: nat)
    requires i < j <= |events| && (TookAt(c, n, events, i) || RetookAt(c, n, events, i))
    requires forall l | i <= l < j :: NoFailedWrite(events[l].luck)
    ensures Synced(Before(c, n, events, j))
  {
    var m := j - 1;
    BeforeNext(c, n, events, m);
    if m > i {
      WritesKeepUp(c, n, events, i, m);
      StepSynced(c, Before(c, n, events, m), events[m].call, events[m].luck);
    } else {
      SetIsWritten(c, Before(c, n, events, i), events[i].call, events[i].luck);
    }
  }

  lemma SetIsWritten(c: Config, n: Node, call: Call, luck: Luck)
    requires (Took(c, n, call, luck) || Retook(c, n, call, luck)) && NoFailedWrite(luck)
    ensures Synced(Step(c, n, call, luck).0)
  {
    if HasCluster(n) { SelfIsUnique(n.state.value.cluster.value.nodes, c.name); }
  }

  // ---------------------------------------------------------------- starting as a new cluster

  predicate IsNew(s: Option<State>) {
    s.Some? && s.value.newCluster && s.value.cluster.Some?
  }

  function Filed(n: Node): Option<State> {
    if n.disk.Holds? then Some(n.disk.state) else None
  }

  predicate StartsNew(n: Node) {
    n.process.Some? && n.process.value.createNew
  }

  function TokenOf(s: Option<State>): string {
    if s.Some? && s.value.cluster.Some? then s.value.cluster.value.token else ""
  }

  /** A failed write leaves no state in the file but the one that was there before it, or the one that it was
      to write. */
  predicate Honest(c: Config, n: Node, call: Call, luck: Luck) {
    var n' := Step(c, n, call, luck).0;
    n'.disk.Holds? && (n'.disk != n.disk || (Took(c, n, call, luck) && luck.write.Written?)) ==>
      && n'.state.Some? && n'.disk.state.(newCluster := false) == n'.state.value.(newCluster := false)
      && (n'.disk.state.newCluster ==> n'.state.value.newCluster || (Took(c, n, call, luck) && IsJoin(call, INITIAL_CLUSTER)))
  }

  /** How one step makes, keeps or ends a start as a new cluster. */
  predicate KeepsTrack(c: Config, n: Node, call: Call, luck: Luck, n': Node, reply: Reply) {
    var first := Took(c, n, call, luck) && IsJoin(call, INITIAL_CLUSTER);
    var replaced := (Took(c, n, call, luck) || StopTook(c, n, call, luck)) && luck.write.Written?;
    && (IsNew(n'.state) ==>
          || (first && reply == Error && TokenOf(n'.state) == call.request.token)
          || (IsNew(n.state) && !replaced && TokenOf(n'.state) == TokenOf(n.state))
          || (IsNew(Filed(n)) && !replaced && TokenOf(n'.state) == TokenOf(Filed(n))))
    && (IsNew(Filed(n')) ==>
          || (first && reply == Error && TokenOf(Filed(n')) == call.request.token)
          || (IsNew(n'.state) && TokenOf(Filed(n')) == TokenOf(n'.state))
          || (IsNew(Filed(n)) && !replaced && Filed(n') == Filed(n)))
    && (StartsNew(n') ==>
          || (first && n'.process.value.cluster.token == call.request.token)
          || (n'.process == n.process && !replaced)
          || (IsNew(n'.state) && n'.process.value.cluster.token == TokenOf(n'.state)))
  }

  lemma NewStep(c: Config, n: Node, call: Call, luck: Luck)
    requires Honest(c, n, call, luck)
    ensures KeepsTrack(c, n, call, luck, Step(c, n, call, luck).0, Step(c, n, call, luck).1)
  {
    hide KeepsTrack, Honest, Step;
    if IsCommit(call) { NewCommit(c, n, call, luck); } else { NewOther(c, n, call, luck); }
  }

  lemma NewCommit(c: Config, n: Node, call: Call, luck: Luck)
    requires Honest(c, n, call, luck) && IsCommit(call)
    ensures KeepsTrack(c, n, call, luck, Step(c, n, call, luck).0, Step(c, n, call, luck).1)
  {
  }

  lemma NewOther(c: Config, n: Node, call: Call, luck: Luck)
    requires Honest(c, n, call, luck) && !IsCommit(call)
    ensures KeepsTrack(c, n, call, luck, Step(c, n, call, luck).0, Step(c, n, call, luck).1)
  {
  }

  /** Commit i, for a new cluster with that token, set the state; and no later commit or stop reached the file. */
  predicate NewFrom(c: Config, n: Node, events: seq<Event>, i: nat, k: nat, token: string) {
    && i < k <= |events| && TookAt(c, n, events, i) && IsJoin(events[i].call, INITIAL_CLUSTER)
    && events[i].call.request.token == token
    && forall j | i < j < k && (TookAt(c, n, events, j) || StopTookAt(c, n, events, j)) :: events[j].luck.write.Fails?
  }

  /** The process has been running since the end of event i. */
  predicate RunningSince(c: Config, n: Node, events: seq<Event>, i: nat, k: nat) {
    i < k <= |events| && forall j | i < j <= k :: Before(c, n, events, j).process == Before(c, n, events, k).process
  }

  predicate Blank(n: Node) {
    n.state.None? && n.process.None? && n.prepared.None? && n.disk.Missing?
  }

  ghost predicate AllHonest(c: Config, n: Node, events: seq<Event>) {
    forall j | 0 <= j < |events| :: Honest(c, Before(c, n, events, j), events[j].call, events[j].luck)
  }

  ghost predicate Failed(c: Config, n: Node, events: seq<Event>, k: nat, token: string) {
    exists i: nat :: NewFrom(c, n, events, i, k, token) && ReplyTo(c, n, events, i) == Error
  }

  ghost predicate StillRuns(c: Config, n: Node, events: seq<Event>, k: nat, token: string) {
    exists i: nat :: NewFrom(c, n, events, i, k, token) && RunningSince(c, n, events, i, k)
  }

  lemma FailedNext(c: Config, n: Node, events: seq<Event>, k: nat, token: string)
    requires k < |events| && Failed(c, n, events, k, token)
    requires (TookAt(c, n, events, k) || StopTookAt(c, n, events, k)) ==> events[k].luck.write.Fails?
    ensures Failed(c, n, events, k + 1, token)
  {
    var i: nat :| NewFrom(c, n, events, i, k, token) && ReplyTo(c, n, events, i) == Error;
    assert NewFrom(c, n, events, i, k + 1, token);
  }

  lemma StillRunsNext(c: Config, n: Node, events: seq<Event>, k: nat, token: string)
    requires k < |events| && StillRuns(c, n, events, k, token)
    requires (TookAt(c, n, events, k) || StopTookAt(c, n, events, k)) ==> events[k].luck.write.Fails?
    requires Before(c, n, events, k + 1).process == Before(c, n, events, k).process
    ensures StillRuns(c, n, events, k + 1, token)
  {
    var i: nat :| NewFrom(c, n, events, i, k, token) && RunningSince(c, n, events, i, k);
    assert NewFrom(c, n, events, i, k + 1, token) && RunningSince(c, n, events, i, k + 1);
  }

  /** A node starts etcd as a new cluster only because of a commit for a new cluster with that token, whose clearing
      of the flag has not reached state and file: the process is the one of that commit, or the commit
      reported an error. What is not that of a new cluster in state or file stays so. */
  lemma {:induction false} NewIsFromInitial(c: Config, n: Node, events: seq<Event>, k: nat)
    requires Blank(n) && AllHonest(c, n, events) && k <= |events|
    ensures var b := Before(c, n, events, k);
            && (IsNew(b.state) ==> Failed(c, n, events, k, TokenOf(b.state)))
            && (IsNew(Filed(b)) ==> Failed(c, n, events, k, TokenOf(Filed(b))))
            && (StartsNew(b) ==>
                  var token := b.process.value.cluster.token;
                  Failed(c, n, events, k, token) || StillRuns(c, n, events, k, token))
  {
    if k > 0 {
      var m := k - 1;
      NewIsFromInitial(c, n, events, m);
      BeforeNext(c, n, events, m);
      var b, b', e := Before(c, n, events, m), Before(c, n, events, k), events[m];
      NewStep(c, b, e.call, e.luck);
      CarryOver(c, n, events, m);
      hide Step, Took, StopTook, Before, IsNew, Failed, StillRuns, NewFrom, RunningSince, AllHonest;
    }
  }

  /** What event m does to what has been recorded. */
  lemma CarryOver(c: Config, n: Node, events: seq<Event>, m: nat)
    requires m < |events|
    ensures TookAt(c, n, events, m) && IsJoin(events[m].call, INITIAL_CLUSTER) ==>
              && StillRuns(c, n, events, m + 1, events[m].call.request.token)
              && (ReplyTo(c, n, events, m) == Error ==> Failed(c, n, events, m + 1, events[m].call.request.token))
    ensures !((TookAt(c, n, events, m) || StopTookAt(c, n, events, m)) && events[m].luck.write.Written?) ==>
              && (forall t | Failed(c, n, events, m, t) :: Failed(c, n, events, m + 1, t))
              && (Before(c, n, events, m + 1).process == Before(c, n, events, m).process ==>
                    forall t | StillRuns(c, n, events, m, t) :: StillRuns(c, n, events, m + 1, t))
  {
    hide Took, StopTook, Before, Step;
    if TookAt(c, n, events, m) && IsJoin(events[m].call, INITIAL_CLUSTER) {
      assert NewFrom(c, n, events, m, m + 1, events[m].call.request.token) && RunningSince(c, n, events, m, m + 1);
    }
    if !((TookAt(c, n, events, m) || StopTookAt(c, n, events, m)) && events[m].luck.write.Written?) {
      forall t | Failed(c, n, events, m, t) ensures Failed(c, n, events, m + 1, t) { FailedNext(c, n, events, m, t); }
      if Before(c, n, events, m + 1).process == Before(c, n, events, m).process {
        forall t | StillRuns(c, n, events, m, t) ensures StillRuns(c, n, events, m + 1, t) { StillRunsNext(c, n, events, m, t); }
      }
    }
  }

  /** So a node that has joined an existing cluster never starts it, or any other, as a new one, also across
      restarts and failed writes, until it gets another commit for a new cluster. */
  lemma JoinedIsNeverNew(c: Config, n: Node, events: seq<Event>, i: nat, k: nat)
    requires Blank(n) && AllHonest(c, n, events) && i < k <= |events|
    requires IsJoin(events[i].call, JOIN_EXISTING) && ReplyTo(c, n, events, i) == Ok
    requires forall j | i < j < k && TookAt(c, n, events, j) :: IsJoin(events[j].call, JOIN_EXISTING)
    ensures !StartsNew(Before(c, n, events, k))
  {
    NewIsFromInitial(c, n, events, k);
    OkIsTaken(c, Before(c, n, events, i), events[i].call, events[i].luck);
  }

  lemma OkIsTaken(c: Config, n: Node, call: Call, luck: Luck)
    requires IsCommit(call) && Step(c, n, call, luck).1 == Ok
    ensures Took(c, n, call, luck) && luck.write.Written?
  {
  }

  /** The converse: what a commit for a new cluster left unstarted is started as one, by the node's own loop or a
      reconfiguration, until another commit, a stop or a restart; and what it started was started so. */
  lemma {:induction false} UnstartedStaysNew(c: Config, n: Node, events: seq<Event>, i: nat, k: nat)
    requires i < k <= |events| && TookAt(c, n, events, i) && IsJoin(events[i].call, INITIAL_CLUSTER)
    requires forall j | i < j < k :: !TookAt(c, n, events, j) && !StopTookAt(c, n, events, j) && !events[j].call.Restart?
    ensures var b := Before(c, n, events, k);
            if Before(c, n, events, i + 1).process.None? then IsNew(b.state) && (b.process.Some? ==> StartsNew(b))
            else StartsNew(Before(c, n, events, i + 1))
  {
    var m := k - 1;
    BeforeNext(c, n, events, m);
    if m > i { UnstartedStaysNew(c, n, events, i, m); }
    var b, e := Before(c, n, events, m), events[m];
    KeepsNew(c, b, e.call, e.luck);
  }

  lemma KeepsNew(c: Config, n: Node, call: Call, luck: Luck)
    ensures var n' := Step(c, n, call, luck).0;
            if Took(c, n, call, luck) then
              IsJoin(call, INITIAL_CLUSTER) ==> if n'.process.None? then IsNew(n'.state) else StartsNew(n')
            else
              !StopTook(c, n, call, luck) && !call.Restart? && IsNew(n.state) && (n.process.Some? ==> StartsNew(n)) ==>
                IsNew(n'.state) && (n'.process.Some? ==> StartsNew(n'))
  {
  }
}
