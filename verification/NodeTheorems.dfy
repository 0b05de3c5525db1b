/** What holds of a node in every sequence of calls, failures, crashes and restarts. */
module NodeTheorems {
  import opened Options
  import opened Node

  datatype Event = Event(call: Call, luck: Luck)

  /** The node after a sequence of events. */
  function After(c: Config, n: Node, events: seq<Event>): Node {
    if events == [] then n
    else var k := |events| - 1; Step(c, After(c, n, events[..k]), events[k].call, events[k].luck).0
  }

  function Before(c: Config, n: Node, events: seq<Event>, k: nat): Node
    requires k <= |events|
  {
    After(c, n, events[..k])
  }

  function ReplyTo(c: Config, n: Node, events: seq<Event>, k: nat): Reply
    requires k < |events|
  {
    Step(c, Before(c, n, events, k), events[k].call, events[k].luck).1
  }

  lemma BeforeNext(c: Config, n: Node, events: seq<Event>, k: nat)
    requires k < |events|
    ensures Before(c, n, events, k + 1) == Step(c, Before(c, n, events, k), events[k].call, events[k].luck).0
  {
    assert events[..k + 1][..k] == events[..k];
  }

  // A running process is what the state says.

  /** The process runs the cluster, the quarantine flag, the version and the TLS mode of the state. Only
      the flag for a first start can differ: it is cleared once etcd has started. */
  predicate Agrees(c: Config, n: Node) {
    n.process.Some? ==>
      && n.state.Some? && Startable(c, n.state.value)
      && n.process.value.(createNew := false) == Started(c, n.state.value).(createNew := false)
  }

  lemma JoinAgrees(c: Config, n: Node, r: Request, luck: Luck)
    requires r.JoinCluster? && Agrees(c, n)
    ensures Agrees(c, Join(c, n, r, luck).0)
  {
  }

  lemma ReconfigureAgrees(c: Config, n: Node, r: Request, luck: Luck)
    requires r.Reconfigure? && Agrees(c, n)
    ensures Agrees(c, Reconfiguring(c, n, r, luck).0)
  {
  }

  lemma StepAgrees(c: Config, n: Node, call: Call, luck: Luck)
    requires Agrees(c, n)
    ensures Agrees(c, Step(c, n, call, luck).0)
  {
    match call {
      case Rpc(h, r) =>
        if r.JoinCluster? {
          JoinAgrees(c, n, r, luck);
        } else if r.Reconfigure? {
          ReconfigureAgrees(c, n, r, luck);
        }
      case _ =>
    }
  }

  lemma {:induction false} AlwaysAgrees(c: Config, n: Node, events: seq<Event>)
    requires Agrees(c, n)
    ensures Agrees(c, After(c, n, events))
  {
    if events != [] {
      var k := |events| - 1;
      AlwaysAgrees(c, n, events[..k]);
      StepAgrees(c, After(c, n, events[..k]), events[k].call, events[k].luck);
    }
  }

  // The state file.

  /** The state file holds what the node has in memory. */
  predicate Synced(n: Node) {
    n.disk == if n.state.Some? then Holds(n.state.value) else Missing
  }

  predicate NoFailedWrite(luck: Luck) {
    luck.write.Written? && luck.rewrite.Written?
  }

  predicate ChangesState(call: Call) {
    call.Rpc? && (call.request.JoinCluster? ==> call.request.phase in {INITIAL_CLUSTER, JOIN_EXISTING})
  }

  /** A call that changes what the node runs, and reports success, has written it to disk: whatever
      failed before. */
  lemma SuccessIsOnDisk(c: Config, n: Node, call: Call, luck: Luck)
    requires ChangesState(call) && Step(c, n, call, luck).1 == Ok
    ensures Synced(Step(c, n, call, luck).0)
  {
  }

  /** Memory and disk part only in a call whose write fails. */
  lemma StepSynced(c: Config, n: Node, call: Call, luck: Luck)
    requires Synced(n) && NoFailedWrite(luck)
    ensures Synced(Step(c, n, call, luck).0)
  {
  }

  lemma {:induction false} RunSynced(c: Config, n: Node, events: seq<Event>)
    requires Synced(n) && forall i | 0 <= i < |events| :: NoFailedWrite(events[i].luck)
    ensures Synced(After(c, n, events))
  {
    if events != [] {
      var k := |events| - 1;
      RunSynced(c, n, events[..k]);
      StepSynced(c, After(c, n, events[..k]), events[k].call, events[k].luck);
    }
  }

  /** After a successful call k, and any later events without a failed write, a crash and a restart bring
      the node back to the same cluster, quarantine, version and TLS mode: at once in memory, and in the
      running etcd with the next successful start. */
  lemma RestartResumes(c: Config, n: Node, events: seq<Event>, k: nat, luck: Luck, luck': Luck)
    requires k < |events| && ChangesState(events[k].call) && ReplyTo(c, n, events, k) == Ok
    requires forall i | k < i < |events| :: NoFailedWrite(events[i].luck)
    requires Agrees(c, n) && luck'.starts
    ensures var last := After(c, n, events);
            var booted := Step(c, last, Restart, luck).0;
            var tended := Step(c, booted, RunOnce, luck').0;
            && booted.state == last.state
            && (last.process.Some? ==>
                  tended.process.Some? &&
                  tended.process.value.(createNew := false) == last.process.value.(createNew := false))
  {
    var n' := Before(c, n, events, k + 1);
    BeforeNext(c, n, events, k);
    SuccessIsOnDisk(c, Before(c, n, events, k), events[k].call, events[k].luck);
    AfterSplit(c, n, events, k + 1);
    RunSynced(c, n', events[k + 1..]);
    AlwaysAgrees(c, n, events);
    ResumeStep(c, After(c, n, events), luck, luck');
  }

  lemma ResumeStep(c: Config, last: Node, luck: Luck, luck': Luck)
    requires Synced(last) && Agrees(c, last) && luck'.starts
    ensures var booted := Step(c, last, Restart, luck).0;
            var tended := Step(c, booted, RunOnce, luck').0;
            && booted.state == last.state
            && (last.process.Some? ==>
                  tended.process.Some? &&
                  tended.process.value.(createNew := false) == last.process.value.(createNew := false))
  {
  }

  lemma {:induction false} AfterSplit(c: Config, n: Node, events: seq<Event>, k: nat)
    requires k <= |events|
    ensures After(c, n, events) == After(c, After(c, n, events[..k]), events[k..])
    decreases |events|
  {
    if k < |events| {
      var m := |events| - 1;
      AfterSplit(c, n, events[..m], k);
      assert events[..m][..k] == events[..k] && events[..m][k..] == events[k..][..m - k];
      assert events[k..][m - k] == events[m];
    } else {
      assert events[..k] == events && events[k..] == [];
    }
  }

  // Prepare and commit.

  predicate IsJoin(call: Call, phase: Phase) {
    call.Rpc? && call.request.JoinCluster? && call.request.phase == phase
  }

  predicate IsCommit(call: Call) {
    IsJoin(call, INITIAL_CLUSTER) || IsJoin(call, JOIN_EXISTING)
  }

  /** Event i prepared the node for the token, and since then, before k, no prepare and no commit
      succeeded and the node did not restart. */
  predicate PreparedAt(c: Config, n: Node, events: seq<Event>, i: nat, k: nat, token: string) {
    && i < k <= |events|
    && IsJoin(events[i].call, PREPARE) && events[i].call.request.token == token && ReplyTo(c, n, events, i) == Ok
    && (forall j | i < j < k && ReplyTo(c, n, events, j) == Ok :: !IsJoin(events[j].call, PREPARE) && !IsCommit(events[j].call))
    && (forall j | i < j < k :: !events[j].call.Restart?)
  }

  /** How one step changes the preparation. */
  lemma PreparedStep(c: Config, n: Node, call: Call, luck: Luck)
    ensures var (n', r) := Step(c, n, call, luck);
            && (n'.prepared.Some? && n'.prepared != n.prepared ==>
                  IsJoin(call, PREPARE) && r == Ok &&
                  n'.prepared.value == Prepared(luck.later + PREPARED_VALIDITY, call.request.token))
            && (n'.prepared.Some? && n.prepared.Some? && n'.prepared == n.prepared ==>
                  (r == Ok ==> !IsCommit(call)) && !call.Restart?)
  {
    match call {
      case Rpc(h, r) =>
        if r.JoinCluster? {
          PreparedJoin(c, n, r, luck);
        }
      case _ =>
    }
  }

  lemma PreparedJoin(c: Config, n: Node, r: Request, luck: Luck)
    requires r.JoinCluster?
    ensures var (n', reply) := Join(c, n, r, luck);
            && (n'.prepared.Some? && n'.prepared != n.prepared ==>
                  r.phase == PREPARE && reply == Ok &&
                  n'.prepared.value == Prepared(luck.later + PREPARED_VALIDITY, r.token))
            && (n'.prepared.Some? && n.prepared.Some? && n'.prepared == n.prepared && reply == Ok ==>
                  r.phase !in {INITIAL_CLUSTER, JOIN_EXISTING})
  {
  }

  /** A prepare succeeds only when none is outstanding, or the outstanding one has expired. */
  lemma PrepareReplaces(c: Config, n: Node, call: Call, luck: Luck)
    requires IsJoin(call, PREPARE) && Step(c, n, call, luck).1 == Ok
    ensures n.prepared.Some? ==> luck.now > n.prepared.value.validUntil
    ensures Step(c, n, call, luck).0.prepared == Some(Prepared(luck.later + PREPARED_VALIDITY, call.request.token))
  {
  }

  lemma {:induction false} PreparationIsRecorded(c: Config, n: Node, events: seq<Event>, k: nat)
    returns (i: nat)
    requires n.prepared.None? && k <= |events| && Before(c, n, events, k).prepared.Some?
    ensures var p := Before(c, n, events, k).prepared.value;
            PreparedAt(c, n, events, i, k, p.token) && p.validUntil == events[i].luck.later + PREPARED_VALIDITY
  {
    assert k != 0;
    hide Step, Before;
    var m := k - 1;
    BeforeNext(c, n, events, m);
    var b, e := Before(c, n, events, m), events[m];
    PreparedStep(c, b, e.call, e.luck);
    if IsJoin(e.call, PREPARE) && ReplyTo(c, n, events, m) == Ok {
      PrepareReplaces(c, b, e.call, e.luck);
      i := m;
    } else {
      i := PreparationIsRecorded(c, n, events, m);
    }
  }

  /** Every successful commit of a token follows a successful prepare of that token that has not expired,
      with no other prepare, no other successful commit and no restart in between. */
  lemma CommitFollowsPrepare(c: Config, n: Node, events: seq<Event>, k: nat)
    returns (i: nat)
    requires n.prepared.None? && k < |events|
    requires IsCommit(events[k].call) && ReplyTo(c, n, events, k) == Ok
    ensures PreparedAt(c, n, events, i, k, events[k].call.request.token)
    ensures events[k].luck.now <= events[i].luck.later + PREPARED_VALIDITY
  {
    var b := Before(c, n, events, k);
    CommitNeedsPrepare(c, b, events[k].call, events[k].luck);
    i := PreparationIsRecorded(c, n, events, k);
  }

  lemma CommitNeedsPrepare(c: Config, n: Node, call: Call, luck: Luck)
    requires IsCommit(call) && Step(c, n, call, luck).1 == Ok
    ensures n.prepared.Some? && n.prepared.value.token == call.request.token && luck.now <= n.prepared.value.validUntil
  {
  }

  /** Two successful commits use two prepares: the second one was prepared after the first was committed. */
  lemma CommitsUseDifferentPrepares(c: Config, n: Node, events: seq<Event>, k: nat, l: nat) returns (i: nat, j: nat)
    requires n.prepared.None? && k < l < |events|
    requires IsCommit(events[k].call) && ReplyTo(c, n, events, k) == Ok
    requires IsCommit(events[l].call) && ReplyTo(c, n, events, l) == Ok
    ensures i < k < j < l
    ensures PreparedAt(c, n, events, i, k, events[k].call.request.token)
    ensures PreparedAt(c, n, events, j, l, events[l].call.request.token)
  {
    hide Step, Before, ReplyTo;
    i := CommitFollowsPrepare(c, n, events, k);
    j := CommitFollowsPrepare(c, n, events, l);
  }

  // Fencing.

  /** Event i accepted the token, and nothing since, before k, accepted another or restarted the node. */
  predicate AcceptedAt(events: seq<Event>, i: nat, k: nat, token: string) {
    && i < k <= |events|
    && events[i].call == Accept(token)
    && forall j | i < j < k :: !events[j].call.Restart? && (events[j].call.Accept? ==> events[j].call.token == token)
  }

  lemma LeaderStep(c: Config, n: Node, call: Call, luck: Luck)
    ensures Step(c, n, call, luck).0.leader ==
            match call case Accept(token) => Some(token) case Restart => None case _ => n.leader
  {
  }

  lemma {:induction false} LeaderIsRecorded(c: Config, n: Node, events: seq<Event>, k: nat)
    returns (i: nat)
    requires n.leader.None? && k <= |events| && Before(c, n, events, k).leader.Some?
    ensures AcceptedAt(events, i, k, Before(c, n, events, k).leader.value)
  {
    var m := k - 1;
    BeforeNext(c, n, events, m);
    LeaderStep(c, Before(c, n, events, m), events[m].call, events[m].luck);
    if events[m].call.Accept? {
      i := m;
    } else {
      i := LeaderIsRecorded(c, n, events, m);
    }
  }

  /** A call under a leadership token has an effect, or reports success, only if the node accepted that
      token before and has accepted no other one since. */
  lemma OnlyTheAcceptedLeaderActs(c: Config, n: Node, events: seq<Event>, k: nat)
    returns (i: nat)
    requires n.leader.None? && k < |events| && events[k].call.Rpc?
    requires Before(c, n, events, k + 1) != Before(c, n, events, k) || ReplyTo(c, n, events, k) != Error
    ensures AcceptedAt(events, i, k, events[k].call.header.leadershipToken)
    ensures events[k].call.header.clusterName == c.clusterName
  {
    BeforeNext(c, n, events, k);
    i := LeaderIsRecorded(c, n, events, k);
  }

  // What the code does not give.

  /** A commit that fails only at the start of etcd is not undone: the node tries again by itself, so the
      process runs although the commit reported an error and the preparation is still outstanding. */
  lemma FailedCommitStillStarts(c: Config, n: Node, r: Request, luck: Luck, luck': Luck)
    requires r.JoinCluster? && r.phase in {INITIAL_CLUSTER, JOIN_EXISTING} && c.supported(r.version)
    requires n.process.None? && n.prepared.Some? && n.prepared.value.token == r.token
    requires luck.now <= n.prepared.value.validUntil && luck.write.Written? && !luck.starts
    requires Startable(c, Target(r)) && luck'.starts
    ensures var (n1, reply) := Join(c, n, r, luck);
            var n2 := Step(c, n1, RunOnce, luck').0;
            reply == Error && n2.prepared == n.prepared && n2.process == Some(Started(c, Target(r)))
  {
  }

  /** A call panics exactly when it asks to stop or reconfigure a node whose state has no cluster. */
  lemma PanicsWithoutCluster(c: Config, n: Node, call: Call, luck: Luck)
    ensures Step(c, n, call, luck).1 == Panic <==>
            && call.Rpc? && Validated(c, n, call.header)
            && !call.request.JoinCluster? && n.state.Some? && n.state.value.cluster.None?
  {
  }

  /** In particular every stop after a successful stop does, also across restarts, until a commit. */
  lemma {:induction false} SecondStopPanics(c: Config, n: Node, h: Header, luck: Luck, events: seq<Event>, luck': Luck)
    requires Step(c, n, Rpc(h, StopEtcd), luck).1 == Ok
    requires forall i | 0 <= i < |events| :: !IsCommit(events[i].call)
    ensures var n' := After(c, Step(c, n, Rpc(h, StopEtcd), luck).0, events);
            && n'.state == Some(EMPTY) && n'.process == None && n'.disk == Holds(EMPTY)
            && (Validated(c, n', h) ==> Step(c, n', Rpc(h, StopEtcd), luck').1 == Panic)
  {
    if events != [] {
      var k := |events| - 1;
      SecondStopPanics(c, n, h, luck, events[..k], luck');
    }
  }
}
