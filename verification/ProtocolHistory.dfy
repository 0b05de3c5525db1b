/** What has happened before a step of a run, without any discipline: who accepted the leader, why a
    quarantine is lifted, and what was restored when a command leaves the queue. */
module ProtocolHistory {
  import opened Protocol
  import opened ProtocolInvariant
  import opened ProtocolTheorems

  // ---------------------------------------------------------------- epochs

  /** Every cycle has an epoch of the past. */
  predicate Numbered(s: Sys) {
    forall e | e in s.cycles :: e < s.nextEpoch
  }

  /** No step but a start adds a cycle, and no step takes an epoch back. */
  predicate KeepsEpochs(s: Sys, s': Sys) {
    s'.nextEpoch >= s.nextEpoch && forall e | e in s'.cycles :: e in s.cycles || e < s'.nextEpoch
  }

  lemma LocalEpochs(env: Env, s: Sys, a: LocalAction)
    requires CanLocally(env, s, a)
    ensures KeepsEpochs(s, DoLocally(env, s, a))
  {
  }

  lemma CycleEpochs(env: Env, s: Sys, a: CycleAction)
    requires CanStep(env, s, a)
    ensures KeepsEpochs(s, DoStep(env, s, a))
  {
  }

  lemma RequestEpochs(s: Sys, e: Epoch, n: Node, r: Request)
    requires CanRequest(s, e, n, r)
    ensures KeepsEpochs(s, DoRequest(s, e, n, r))
  {
  }

  lemma WriteEpochs(s: Sys, e: Epoch, w: Write)
    requires CanWrite(s, e, w)
    ensures KeepsEpochs(s, DoWrite(s, e, w))
  {
  }

  lemma StepNumbered(env: Env, s: Sys, a: Action)
    requires Numbered(s) && Guard(env, s, a)
    ensures Numbered(Apply(env, s, a))
  {
    hide CanLocally, CanStep, CanRequest, CanWrite, DoLocally, DoStep, DoRequest, DoWrite;
    match a {
      case Locally(local) => LocalEpochs(env, s, local);
      case Controller(step) => CycleEpochs(env, s, step);
      case Rpc(e, n, r) => RequestEpochs(s, e, n, r);
      case Unfenced(e, w) => WriteEpochs(s, e, w);
    }
  }

  lemma {:induction false} RunNumbered(env: Env, states: seq<Sys>, actions: seq<Action>, i: nat)
    requires Run(env, states, actions) && i < |states|
    ensures Numbered(states[i])
  {
    if i > 0 {
      RunNumbered(env, states, actions, i - 1);
      StepNumbered(env, states[i - 1], actions[i - 1]);
    }
  }

  // ---------------------------------------------------------------- fencing

  /** Step j was the acceptance of e by n, and no later step before i was another acceptance by n or a crash
      of n. */
  predicate FencedSince(actions: seq<Action>, j: nat, i: nat, e: Epoch, n: Node) {
    && j < i <= |actions| && actions[j] == Controller(Assert(e, n))
    && forall k | j < k < i :: !IsAccept(actions[k], n) && actions[k] != Locally(Crash(n))
  }

  predicate IsAccept(a: Action, n: Node) {
    a.Controller? && a.step.Assert? && a.step.n == n
  }

  /** What n has accepted is as before, and n listens only if it did. */
  predicate SameFence(s: Sys, s': Sys, n: Node) {
    (n in s'.acc <==> n in s.acc) && (n in s.acc ==> s'.acc[n] == s.acc[n]) && (n in s'.listening ==> n in s.listening)
  }

  lemma LocalFence(env: Env, s: Sys, a: LocalAction, n: Node)
    requires CanLocally(env, s, a)
    ensures SameFence(s, DoLocally(env, s, a), n) && (a == Crash(n) ==> n !in DoLocally(env, s, a).listening)
  {
  }

  lemma CycleFence(env: Env, s: Sys, a: CycleAction, n: Node)
    requires CanStep(env, s, a)
    ensures var s' := DoStep(env, s, a);
            if a.Assert? && a.n == n then n in s'.acc && s'.acc[n] == a.e else SameFence(s, s', n)
  {
  }

  lemma RequestFence(s: Sys, e: Epoch, m: Node, r: Request, n: Node)
    requires CanRequest(s, e, m, r)
    ensures SameFence(s, DoRequest(s, e, m, r), n)
  {
  }

  lemma WriteFence(s: Sys, e: Epoch, w: Write, n: Node)
    requires CanWrite(s, e, w)
    ensures SameFence(s, DoWrite(s, e, w), n)
  {
  }

  lemma FenceStep(env: Env, s: Sys, a: Action, n: Node)
    requires Guard(env, s, a)
    ensures var s' := Apply(env, s, a);
            && (a == Locally(Crash(n)) ==> n !in s'.listening)
            && if IsAccept(a, n) then n in s'.acc && s'.acc[n] == a.step.e else SameFence(s, s', n)
  {
    hide CanLocally, CanStep, CanRequest, CanWrite, DoLocally, DoStep, DoRequest, DoWrite;
    match a {
      case Locally(local) => LocalFence(env, s, local, n);
      case Controller(step) => CycleFence(env, s, step, n);
      case Rpc(e, m, r) => RequestFence(s, e, m, r, n);
      case Unfenced(e, w) => WriteFence(s, e, w, n);
    }
  }

  lemma {:induction false} AcceptanceIsRecorded(env: Env, states: seq<Sys>, actions: seq<Action>, i: nat, n: Node) returns (j: nat)
    requires Run(env, states, actions) && i < |states| && n in states[i].acc && n in states[i].listening
    ensures FencedSince(actions, j, i, states[i].acc[n], n)
  {
    assert i > 0;
    RunStep(env, states, actions, i - 1);
    hide Apply, Guard, Run;
    FenceStep(env, states[i - 1], actions[i - 1], n);
    if IsAccept(actions[i - 1], n) {
      j := i - 1;
    } else {
      j := AcceptanceIsRecorded(env, states, actions, i - 1, n);
    }
  }

  /** Every request that a node obeys follows its acceptance of that leader's bid, with no acceptance of
      another and no restart in between. */
  lemma RequestsAreFenced(env: Env, states: seq<Sys>, actions: seq<Action>, i: nat) returns (j: nat)
    requires Run(env, states, actions) && i < |actions| && actions[i].Rpc?
    ensures FencedSince(actions, j, i, actions[i].epoch, actions[i].node)
  {
    hide CanRequest;
    assert CanRequest(states[i], actions[i].epoch, actions[i].node, actions[i].request);
    RequestNeedsFence(states[i], actions[i].epoch, actions[i].node, actions[i].request);
    j := AcceptanceIsRecorded(env, states, actions, i, actions[i].node);
  }

  lemma RequestNeedsFence(s: Sys, e: Epoch, n: Node, r: Request)
    requires CanRequest(s, e, n, r)
    ensures Fenced(s, e, n)
  {
  }

  // ---------------------------------------------------------------- how a cycle got where it is

  /** How a step changes the record of cycle e. */
  predicate Moves(s: Sys, a: Action, e: Epoch, s': Sys)
    requires e in s'.cycles
  {
    if e !in s.cycles then
      a.Controller? && a.step.Start? && a.step.owner == s'.cycles[e].owner && s'.cycles[e].pc == Asserting(s'.cycles[e].view)
    else
      && s'.cycles[e].owner == s.cycles[e].owner && s'.cycles[e].view == s.cycles[e].view
      && MovesPc(s.cycles[e].pc, a, e, s'.cycles[e].pc)
  }

  predicate MovesPc(pc: Pc, a: Action, e: Epoch, pc': Pc) {
    || pc' == pc
    || match pc'
       case Asserting(rest) =>
         pc.Asserting? && a.Controller? && a.step.Assert? && a.step.e == e && rest == pc.unasked - {a.step.n}
       case Surveyed => pc == Asserting({})
       case Lifting => pc == Surveyed && a == Controller(ChooseLift(e))
       case Copying(_, _, source, left) =>
         || (a.Rpc? && a.epoch == e && a.request == BeginCopy && !pc.Asserting? && left == source.Keys)
         || (a.Unfenced? && a.writer == e && a.write.Copy? && pc.Copying? && pc.source == source && left == pc.left - {a.write.key})
       case _ => !pc.Asserting?
  }

  lemma LocalMoves(env: Env, s: Sys, a: LocalAction, e: Epoch)
    requires CanLocally(env, s, a) && e in DoLocally(env, s, a).cycles
    ensures Moves(s, Locally(a), e, DoLocally(env, s, a))
  {
  }

  lemma CycleMoves(env: Env, s: Sys, a: CycleAction, e: Epoch)
    requires Numbered(s) && CanStep(env, s, a) && e in DoStep(env, s, a).cycles
    ensures Moves(s, Controller(a), e, DoStep(env, s, a))
  {
  }

  lemma RequestMoves(env: Env, s: Sys, f: Epoch, n: Node, r: Request, e: Epoch)
    requires CanRequest(s, f, n, r) && e in DoRequest(s, f, n, r).cycles
    ensures Moves(s, Rpc(f, n, r), e, DoRequest(s, f, n, r))
  {
    if r == BeginCopy && e == f { RestoreMoves(s, f, n); }
  }

  lemma RestoreMoves(s: Sys, f: Epoch, n: Node)
    requires CanRequest(s, f, n, BeginCopy)
    ensures f in DoRequest(s, f, n, BeginCopy).cycles && Moves(s, Rpc(f, n, BeginCopy), f, DoRequest(s, f, n, BeginCopy))
  {
  }

  lemma WriteMoves(env: Env, s: Sys, f: Epoch, w: Write, e: Epoch)
    requires CanWrite(s, f, w) && e in DoWrite(s, f, w).cycles
    ensures Moves(s, Unfenced(f, w), e, DoWrite(s, f, w))
  {
  }

  lemma StepMoves(env: Env, s: Sys, a: Action, e: Epoch)
    requires Numbered(s) && Guard(env, s, a) && e in Apply(env, s, a).cycles
    ensures Moves(s, a, e, Apply(env, s, a))
  {
    hide CanLocally, CanStep, CanRequest, CanWrite, DoLocally, DoStep, DoRequest, DoWrite, Moves;
    match a {
      case Locally(local) => LocalMoves(env, s, local, e);
      case Controller(step) => CycleMoves(env, s, step, e);
      case Rpc(f, n, r) => RequestMoves(env, s, f, n, r, e);
      case Unfenced(f, w) => WriteMoves(env, s, f, w, e);
    }
  }

  predicate Did(actions: seq<Action>, i: nat, a: Action) {
    exists j :: 0 <= j < i && j < |actions| && actions[j] == a
  }

  /** What must have happened before step i for cycle e to be where it is. */
  ghost predicate Explained(actions: seq<Action>, i: nat, e: Epoch, c: Cycle) {
    && (forall n | n in c.view && !(c.pc.Asserting? && n in c.pc.unasked) :: Did(actions, i, Controller(Assert(e, n))))
    && (c.pc.Lifting? ==> Did(actions, i, Controller(ChooseLift(e))))
    && (c.pc.Copying? ==>
          && (exists n :: Did(actions, i, Rpc(e, n, BeginCopy)))
          && forall k | k in c.pc.source && k !in c.pc.left :: Did(actions, i, Unfenced(e, Copy(k))))
  }

  lemma DidNext(actions: seq<Action>, i: nat)
    requires i < |actions|
    ensures Did(actions, i + 1, actions[i]) && forall a | Did(actions, i, a) :: Did(actions, i + 1, a)
  {
    forall a | Did(actions, i, a) ensures Did(actions, i + 1, a) {
      var j :| 0 <= j < i && j < |actions| && actions[j] == a;
    }
  }

  lemma ExplainedNext(actions: seq<Action>, i: nat, e: Epoch, c: Cycle, c': Cycle)
    requires i < |actions| && Explained(actions, i, e, c)
    requires c'.view == c.view && MovesPc(c.pc, actions[i], e, c'.pc)
    ensures Explained(actions, i + 1, e, c')
  {
    DidNext(actions, i);
    hide Did;
  }

  lemma {:induction false} CycleIsExplained(env: Env, states: seq<Sys>, actions: seq<Action>, i: nat, e: Epoch)
    requires Run(env, states, actions) && i < |states| && e in states[i].cycles
    ensures Explained(actions, i, e, states[i].cycles[e])
  {
    NoCycleAtStart(env, states, actions, i, e);
    RunStep(env, states, actions, i - 1);
    hide Apply, Guard, Run, Explained, MovesPc;
    var s, a := states[i - 1], actions[i - 1];
    RunNumbered(env, states, actions, i - 1);
    StepMoves(env, s, a, e);
    if e in s.cycles {
      CycleIsExplained(env, states, actions, i - 1, e);
      ExplainedNext(actions, i - 1, e, s.cycles[e], states[i].cycles[e]);
    } else {
      JustStarted(actions, i, e, states[i].cycles[e]);
    }
  }

  lemma JustStarted(actions: seq<Action>, i: nat, e: Epoch, c: Cycle)
    requires c.pc == Asserting(c.view)
    ensures Explained(actions, i, e, c)
  {
  }

  lemma NoCycleAtStart(env: Env, states: seq<Sys>, actions: seq<Action>, i: nat, e: Epoch)
    requires Run(env, states, actions) && i < |states| && e in states[i].cycles
    ensures i > 0
  {
  }

  lemma RunStep(env: Env, states: seq<Sys>, actions: seq<Action>, i: nat)
    requires Run(env, states, actions) && i < |actions|
    ensures i + 1 < |states| && Guard(env, states[i], actions[i]) && states[i + 1] == Apply(env, states[i], actions[i])
  {
  }

  /** A controller that has passed the gate was accepted, under this cycle's assertion, by every peer of its
      view: by as many different nodes as it counts. */
  lemma PassedGateIsAccepted(env: Env, states: seq<Sys>, actions: seq<Action>, i: nat, n: Node)
    requires Run(env, states, actions) && i < |actions| && actions[i].Controller? && actions[i].step.Survey?
    requires var e := actions[i].step.e; e in states[i].cycles && n in states[i].cycles[e].view
    ensures Did(actions, i, Controller(Assert(actions[i].step.e, n)))
  {
    var e := actions[i].step.e;
    CycleIsExplained(env, states, actions, i, e);
    assert CanStep(env, states[i], actions[i].step);
  }

  /** A controller that has chosen a branch has a quorum of peers behind it: each of them accepted it under this
      cycle's assertion. */
  lemma ActorsAreBacked(env: Env, states: seq<Sys>, actions: seq<Action>, i: nat, e: Epoch)
    requires env.Ok() && Run(env, states, actions) && i < |states| && e in states[i].cycles && Decided(states[i].cycles[e])
    ensures |states[i].cycles[e].view| >= env.Q()
    ensures forall n | n in states[i].cycles[e].view :: Did(actions, i, Controller(Assert(e, n)))
  {
    CycleIsExplained(env, states, actions, i, e);
    RunKeepsSized(env, states, actions, i);
    assert SizedCycle(env, states[i].cycles[e]);
  }

  // ---------------------------------------------------------------- quarantine

  /** Choosing to lift needs the mark, an empty cached queue, a quorum of peers, and a healthy quorum. */
  predicate MayLift(s: Sys, e: Epoch) {
    && e in s.cycles && s.cycles[e].owner in s.caches && s.created && s.caches[s.cycles[e].owner] == []
    && s.cycles[e].pc.Surveyed? && s.cycles[e].ready && !s.cycles[e].mismatch && s.cycles[e].flagged != {}
  }

  /** Every request that clears quarantine follows a choice to lift, made by the same cycle when it found the
      mark, no restore command in its cached queue, and a healthy quorum of the desired version. */
  lemma LiftsAreChosen(env: Env, states: seq<Sys>, actions: seq<Action>, i: nat) returns (j: nat)
    requires Run(env, states, actions) && i < |actions| && actions[i].Rpc? && actions[i].request == Lift
    ensures j < i && actions[j] == Controller(ChooseLift(actions[i].epoch)) && MayLift(states[j], actions[i].epoch)
    ensures |states[j].cycles[actions[i].epoch].view| >= env.Q()
  {
    var e := actions[i].epoch;
    assert CanRequest(states[i], e, actions[i].node, Lift);
    assert e in states[i].cycles && states[i].cycles[e].pc.Lifting?;
    hide CanRequest;
    CycleIsExplained(env, states, actions, i, e);
    j :| 0 <= j < i && j < |actions| && actions[j] == Controller(ChooseLift(e));
    assert CanStep(env, states[j], ChooseLift(e));
  }

  // ---------------------------------------------------------------- the queue

  lemma LocalQueue(env: Env, s: Sys, a: LocalAction)
    requires CanLocally(env, s, a)
    ensures DoLocally(env, s, a).queue == s.queue
  {
  }

  lemma CycleQueue(env: Env, s: Sys, a: CycleAction)
    requires CanStep(env, s, a)
    ensures DoStep(env, s, a).queue == s.queue
  {
  }

  lemma RequestQueue(s: Sys, e: Epoch, n: Node, r: Request)
    requires CanRequest(s, e, n, r)
    ensures DoRequest(s, e, n, r).queue == s.queue
  {
  }

  lemma WriteQueue(s: Sys, e: Epoch, w: Write)
    requires CanWrite(s, e, w)
    ensures var q := DoWrite(s, e, w).queue;
            if w == AddCommand then exists b :: q == s.queue + [b]
            else if w == RemoveCommand then s.queue != [] && q == s.queue[1..]
            else q == s.queue
  {
  }

  lemma QueueStep(env: Env, s: Sys, a: Action)
    requires Guard(env, s, a)
    ensures var q := Apply(env, s, a).queue;
            || q == s.queue || (exists b :: q == s.queue + [b])
            || (a.Unfenced? && a.write == RemoveCommand && s.queue != [] && q == s.queue[1..])
  {
    hide CanLocally, CanStep, CanRequest, CanWrite, DoLocally, DoStep, DoRequest, DoWrite;
    match a {
      case Locally(local) => LocalQueue(env, s, local);
      case Controller(step) => CycleQueue(env, s, step);
      case Rpc(e, n, r) => RequestQueue(s, e, n, r);
      case Unfenced(e, w) => WriteQueue(s, e, w);
    }
  }

  /** A command leaves the queue only from its head, by a cycle that has begun a restore and has copied every
      key of that command's backup. */
  lemma CommandsLeaveRestored(env: Env, states: seq<Sys>, actions: seq<Action>, i: nat, k: string)
    requires Run(env, states, actions) && i < |actions| && |states[i + 1].queue| < |states[i].queue|
    ensures actions[i].Unfenced? && actions[i].write == RemoveCommand && states[i + 1].queue == states[i].queue[1..]
    ensures exists n :: Did(actions, i, Rpc(actions[i].writer, n, BeginCopy))
    ensures k in states[i].queue[0] ==> Did(actions, i, Unfenced(actions[i].writer, Copy(k)))
  {
    QueueStep(env, states[i], actions[i]);
    var e := actions[i].writer;
    assert CanWrite(states[i], e, RemoveCommand);
    CycleIsExplained(env, states, actions, i, e);
  }

  // ---------------------------------------------------------------- discipline, by what has happened

  predicate WritesQueue(a: Action) {
    a.Unfenced? && a.write in {AddCommand, RemoveCommand}
  }

  predicate WrittenBy(s: Sys, a: Action, n: Node) {
    WritesQueue(a) && a.writer in s.cycles && s.cycles[a.writer].owner == n
  }

  /** n reads the queue: in an election or to refresh it, or because it writes it. */
  predicate Reads(s: Sys, a: Action, n: Node) {
    a == Locally(Elect(n)) || a == Locally(Refresh(n)) || WrittenBy(s, a, n)
  }

  /** No other controller has written the queue since n read it, or at all. */
  ghost predicate FreshAt(states: seq<Sys>, actions: seq<Action>, i: nat, n: Node)
    requires |states| == |actions| + 1 && i <= |actions|
  {
    || (forall k | 0 <= k < i :: WritesQueue(actions[k]) ==> WrittenBy(states[k], actions[k], n))
    || exists j: nat :: ReadAt(states, actions, j, i, n)
  }

  ghost predicate ReadAt(states: seq<Sys>, actions: seq<Action>, j: nat, i: nat, n: Node)
    requires |states| == |actions| + 1 && i <= |actions|
  {
    && j < i && Reads(states[j], actions[j], n)
    && forall k | j < k < i :: WritesQueue(actions[k]) ==> WrittenBy(states[k], actions[k], n)
  }

  /** n's cached queue is the store's. */
  predicate Cached(s: Sys, n: Node) {
    n in s.caches && s.caches[n] == s.queue
  }

  lemma LocalCache(env: Env, s: Sys, a: LocalAction, n: Node)
    requires CanLocally(env, s, a)
    ensures Cached(s, n) || a == Elect(n) || a == Refresh(n) ==> Cached(DoLocally(env, s, a), n)
  {
  }

  lemma CycleCache(env: Env, s: Sys, a: CycleAction, n: Node)
    requires CanStep(env, s, a)
    ensures Cached(s, n) ==> Cached(DoStep(env, s, a), n)
  {
  }

  lemma RequestCache(s: Sys, e: Epoch, m: Node, r: Request, n: Node)
    requires CanRequest(s, e, m, r)
    ensures Cached(s, n) ==> Cached(DoRequest(s, e, m, r), n)
  {
  }

  lemma WriteCache(s: Sys, e: Epoch, w: Write, n: Node)
    requires CanWrite(s, e, w)
    ensures WrittenBy(s, Unfenced(e, w), n) || (Cached(s, n) && !WritesQueue(Unfenced(e, w))) ==> Cached(DoWrite(s, e, w), n)
  {
  }

  lemma CacheStep(env: Env, s: Sys, a: Action, n: Node)
    requires Guard(env, s, a)
    ensures Reads(s, a, n) || (Cached(s, n) && (WritesQueue(a) ==> WrittenBy(s, a, n))) ==> Cached(Apply(env, s, a), n)
  {
    hide CanLocally, CanStep, CanRequest, CanWrite, DoLocally, DoStep, DoRequest, DoWrite, Cached;
    match a {
      case Locally(local) => LocalCache(env, s, local, n);
      case Controller(step) => CycleCache(env, s, step, n);
      case Rpc(e, m, r) => RequestCache(s, e, m, r, n);
      case Unfenced(e, w) => WriteCache(s, e, w, n);
    }
  }

  /** Who has read the queue since any other controller wrote it has it. */
  lemma {:induction false} FreshIsCached(env: Env, states: seq<Sys>, actions: seq<Action>, i: nat, n: Node)
    requires Run(env, states, actions) && i <= |actions| && n in env.nodes && FreshAt(states, actions, i, n)
    ensures Cached(states[i], n)
  {
    if i > 0 {
      var m := i - 1;
      RunStep(env, states, actions, m);
      CacheStep(env, states[m], actions[m], n);
      if !Reads(states[m], actions[m], n) {
        FreshBefore(states, actions, i, n);
        FreshIsCached(env, states, actions, m, n);
      }
    }
  }

  lemma FreshBefore(states: seq<Sys>, actions: seq<Action>, i: nat, n: Node)
    requires |states| == |actions| + 1 && 0 < i <= |actions| && FreshAt(states, actions, i, n) && !Reads(states[i - 1], actions[i - 1], n)
    ensures FreshAt(states, actions, i - 1, n) && !WritesQueue(actions[i - 1])
  {
    if j: nat :| ReadAt(states, actions, j, i, n) {
      assert j < i - 1 && ReadAt(states, actions, j, i - 1, n);
    }
  }

  /** n has accepted e, and nobody else since. */
  ghost predicate StillAccepts(actions: seq<Action>, i: nat, e: Epoch, n: Node) {
    exists j: nat :: AcceptsSince(actions, j, i, e, n)
  }

  predicate AcceptsSince(actions: seq<Action>, j: nat, i: nat, e: Epoch, n: Node) {
    j < i <= |actions| && actions[j] == Controller(Assert(e, n)) && forall k | j < k < i :: !IsAccept(actions[k], n)
  }

  lemma {:induction false} AcceptLasts(env: Env, states: seq<Sys>, actions: seq<Action>, j: nat, i: nat, e: Epoch, n: Node)
    requires Run(env, states, actions) && AcceptsSince(actions, j, i, e, n)
    ensures Last(states[i], n, e)
  {
    var m := i - 1;
    RunStep(env, states, actions, m);
    hide Apply, Guard, Run;
    FenceStep(env, states[m], actions[m], n);
    if m > j { AcceptLasts(env, states, actions, j, m, e, n); }
  }

  predicate IsChoice(s: Sys, a: CycleAction) {
    a.ChooseLift? || a.ChooseUpgrade? || (a.ChooseCreate? && s.created) || a.ChooseRestore? || a.ChooseExpand?
  }

  /** The hypothesis of the main theorem in terms of what has happened: before a choice its controller has read
      the queue after every write of another; before a write to the store, or a copy from a desired size of four
      on, every peer of the view has accepted the leader and no other one since. */
  ghost predicate Prudent(env: Env, states: seq<Sys>, actions: seq<Action>, i: nat)
    requires |states| == |actions| + 1 && i < |actions|
  {
    match actions[i]
    case Controller(step) =>
      IsChoice(states[i], step) && step.e in states[i].cycles ==> FreshAt(states, actions, i, states[i].cycles[step.e].owner)
    case Unfenced(e, w) =>
      w.AddMember? || (w.Copy? && env.memberCount <= 3) ||
      (e in states[i].cycles ==> forall n | n in states[i].cycles[e].view :: StillAccepts(actions, i, e, n))
    case _ => true
  }

  ghost predicate PrudentRun(env: Env, states: seq<Sys>, actions: seq<Action>) {
    Run(env, states, actions) && forall i | 0 <= i < |actions| :: Prudent(env, states, actions, i)
  }

  lemma {:induction false} OwnersAreMachines(env: Env, states: seq<Sys>, actions: seq<Action>, i: nat, e: Epoch)
    requires Run(env, states, actions) && i < |states| && e in states[i].cycles
    ensures states[i].cycles[e].owner in env.nodes
  {
    NoCycleAtStart(env, states, actions, i, e);
    RunStep(env, states, actions, i - 1);
    hide Apply, Guard, Run;
    RunNumbered(env, states, actions, i - 1);
    StepMoves(env, states[i - 1], actions[i - 1], e);
    if e in states[i - 1].cycles {
      OwnersAreMachines(env, states, actions, i - 1, e);
    } else {
      StartedByMachine(env, states[i - 1], actions[i - 1]);
    }
  }

  lemma StartedByMachine(env: Env, s: Sys, a: Action)
    requires Guard(env, s, a) && a.Controller? && a.step.Start?
    ensures a.step.owner in env.nodes
  {
  }

  lemma PrudentIsDisciplined(env: Env, states: seq<Sys>, actions: seq<Action>, i: nat)
    requires Run(env, states, actions) && i < |actions| && Prudent(env, states, actions, i)
    ensures Disciplined(env, states[i], actions[i])
  {
    RunStep(env, states, actions, i);
    match actions[i]
    case Controller(step) =>
      if IsChoice(states[i], step) {
        assert step.e in states[i].cycles;
        OwnersAreMachines(env, states, actions, i, step.e);
        FreshIsCached(env, states, actions, i, states[i].cycles[step.e].owner);
      }
    case Unfenced(e, w) =>
      if !w.AddMember? && !(w.Copy? && env.memberCount <= 3) {
        forall n | n in states[i].cycles[e].view ensures Last(states[i], n, e) {
          assert StillAccepts(actions, i, e, n);
          var j: nat :| AcceptsSince(actions, j, i, e, n);
          AcceptLasts(env, states, actions, j, i, e, n);
        }
      }
    case _ =>
  }

  /** The main theorem on traces: in every run in which controllers read the queue and keep their peers like
      that, whatever a client reads is the result of exactly the acknowledged writes. */
  lemma PrudentRunsLoseNothing(env: Env, states: seq<Sys>, actions: seq<Action>, i: nat, n: Node)
    requires env.Ok() && PrudentRun(env, states, actions) && i < |states| && Serving(states[i], n)
    ensures states[i].clusters[states[i].cfg[n].token].kv == states[i].acked
  {
    forall k | 0 <= k < |actions| ensures Disciplined(env, states[k], actions[k]) { PrudentIsDisciplined(env, states, actions, k); }
    hide Disciplined, Prudent;
    NoAcknowledgedWriteIsLost(env, states, actions, i, n);
  }
}
