/** Every disciplined step keeps the rivals of the current cluster weak: who could gather around a cluster
    only shrinks, unless the cluster has a quorum. */
module ProtocolRivals {
  import opened Options
  import opened Quorum
  import opened Protocol
  import opened ProtocolInvariant
  import opened ProtocolSteps

  // ---------------------------------------------------------------- frames

  /** A creation goes on by requests that its nodes obey. */
  predicate Advances(s: Sys, m: Epoch, pc: Pc, pc': Pc) {
    && pc.Creating? && pc'.Creating? && pc.token == pc'.token && Open(pc') <= Open(pc)
    && forall n | n in Needed(pc) && n !in Needed(pc') :: Last(s, n, m)
  }

  /** No cycle regains a node. */
  ghost predicate NoneRegained(s: Sys, s': Sys) {
    forall n, e | Last(s', n, e) && e in s'.cycles && !s'.cycles[e].pc.Asserting? :: Last(s, n, e)
  }

  /** Creations only advance, and nobody else is about to join t. */
  ghost predicate Orderly(s: Sys, s': Sys, t: Token) {
    && (forall m | m in s'.cycles && s'.cycles[m].pc.Creating? && s'.cycles[m].pc.token == t ::
          m in s.cycles && Advances(s, m, s.cycles[m].pc, s'.cycles[m].pc))
    && (forall g, n | Joins(s', g, n, t) :: Joins(s, g, n, t))
  }

  lemma PotentialShrinks(s: Sys, s': Sys, t: Token)
    requires t in s.clusters && t in s'.clusters && s'.clusters[t].maker == s.clusters[t].maker
    requires NoneRegained(s, s') && Orderly(s, s', t) && Holders(s', t) <= Potential(s, t)
    ensures Potential(s', t) <= Potential(s, t)
  {
    ReachShrinks(s, s', t);
    forall n | n in Joiners(s', t) ensures n in Joiners(s, t) {
      assert Joins(s, s'.acc[n], n, t) && Last(s', n, s'.acc[n]);
    }
  }

  lemma ReachShrinks(s: Sys, s': Sys, t: Token)
    requires t in s.clusters && t in s'.clusters && s'.clusters[t].maker == s.clusters[t].maker
    requires NoneRegained(s, s') && Orderly(s, s', t)
    ensures Reach(s', t) <= Reach(s, t)
  {
    var m := s.clusters[t].maker;
    if Reach(s', t) != {} {
      assert Advances(s, m, s.cycles[m].pc, s'.cycles[m].pc);
      forall n | n in Needed(s.cycles[m].pc) ensures Last(s, n, m) {
        if n in Needed(s'.cycles[m].pc) { assert Last(s', n, m); }
      }
    }
  }

  lemma WeakStays(env: Env, s: Sys, s': Sys, t: Token)
    requires t in s.clusters && t in s'.clusters && s'.clusters[t].maker == s.clusters[t].maker
    requires NoneRegained(s, s') && Orderly(s, s', t) && Holders(s', t) <= Potential(s, t)
    requires Weak(env, s, t)
    ensures Weak(env, s', t)
  {
    PotentialShrinks(s, s', t);
    SubsetSize(Potential(s', t), Potential(s, t));
  }

  /** Who may restore into its observed cluster leads unrivalled. */
  ghost predicate Supported(env: Env, s: Sys, s': Sys) {
    forall e | e in s'.cycles && Standing(env, s', e) :: Unrivalled(env, s, s'.cycles[e].obs)
  }

  /** What all steps have in common, except growth. */
  ghost predicate Calm(env: Env, s: Sys, s': Sys) {
    && (forall t | t in s.clusters :: t in s'.clusters && s'.clusters[t].maker == s.clusters[t].maker)
    && NoneRegained(s, s') && Supported(env, s, s')
    && (forall t | t in s.clusters :: Orderly(s, s', t) && Holders(s', t) <= Potential(s, t))
  }

  lemma CalmWeak(env: Env, s: Sys, s': Sys)
    requires Calm(env, s, s')
    ensures forall t | t in s.clusters && Weak(env, s, t) :: Weak(env, s', t)
  {
    forall t | t in s.clusters && Weak(env, s, t) ensures Weak(env, s', t) { WeakStays(env, s, s', t); }
  }

  /** What was weak stays so, and a cluster that starts is weak while somebody may restore into another. */
  ghost predicate Weakened(env: Env, s: Sys, s': Sys) {
    && (forall t | t in s.clusters ::
          t in s'.clusters && s'.clusters[t].born == s.clusters[t].born && (Weak(env, s, t) ==> Weak(env, s', t)))
    && (forall t | t in s'.clusters && t !in s.clusters :: Newborn(s', t))
    && (forall t, f | t in s'.clusters && t !in s.clusters && f in s'.cycles && Standing(env, s', f) :: Weak(env, s', t))
  }

  lemma RivalsFrom(env: Env, s: Sys, s': Sys)
    requires Rivals(env, s) && s'.created == s.created && s'.cur == s.cur && s'.gen == s.gen && Supported(env, s, s') && Weakened(env, s, s')
    ensures Rivals(env, s')
  {
    hide Weak, Standing;
    assert forall t | t in s.clusters :: Newborn(s', t) == Newborn(s, t);
    forall e | e in s'.cycles && Standing(env, s', e) ensures Unrivalled(env, s', s'.cycles[e].obs) {
      assert Unrivalled(env, s, s'.cycles[e].obs);
    }
  }

  /** The clusters are the same, and so are the current and the new ones. */
  predicate SameEra(s: Sys, s': Sys) {
    && s'.created == s.created && s'.cur == s.cur && s'.gen == s.gen && s'.clusters.Keys == s.clusters.Keys
    && forall t | t in s.clusters :: s'.clusters[t].born == s.clusters[t].born
  }

  lemma CalmStep(env: Env, s: Sys, s': Sys)
    requires Rivals(env, s) && Calm(env, s, s') && SameEra(s, s')
    ensures Rivals(env, s')
  {
    CalmWeak(env, s, s');
    RivalsFrom(env, s, s');
  }

  // ---------------------------------------------------------------- steps on one cycle's own record

  /** How e's record may change. */
  ghost predicate Follows(s: Sys, e: Epoch, c: Cycle, c': Cycle) {
    && c'.view == c.view && c'.obs == c.obs
    && (c'.pc.Creating? && c'.pc.token in s.clusters ==> Advances(s, e, c.pc, c'.pc))
    && (c'.pc.Expanding? && c'.pc.stage == Joining ==> c'.pc == c.pc)
    && (Restores(c'.pc) ==> Restores(c.pc))
  }

  /** Only e's record and, perhaps, the contents of clusters and what nodes do change. */
  ghost predicate Private(s: Sys, s': Sys, e: Epoch) {
    && s'.acc == s.acc && s'.cycles.Keys <= s.cycles.Keys
    && (forall t | t in s.clusters :: t in s'.clusters && s'.clusters[t].maker == s.clusters[t].maker)
    && (forall f | f in s'.cycles && f != e :: s'.cycles[f] == s.cycles[f])
    && (e in s'.cycles ==> Follows(s, e, s.cycles[e], s'.cycles[e]))
  }

  lemma PrivateIsCalm(env: Env, s: Sys, s': Sys, e: Epoch)
    requires Rivals(env, s) && Private(s, s', e)
    requires forall t | t in s.clusters :: Holders(s', t) <= Potential(s, t)
    ensures Calm(env, s, s')
  {
    hide Weak, Potential;
    forall f | f in s'.cycles && Standing(env, s', f) ensures Unrivalled(env, s, s'.cycles[f].obs) {
      assert Unsuperseded(s, f) && Standing(env, s, f) by {
        assert forall n :: Last(s', n, f) == Last(s, n, f);
      }
    }
    forall t | t in s.clusters ensures Orderly(s, s', t) { PrivateIsOrderly(s, s', e, t); }
  }

  lemma PrivateIsOrderly(s: Sys, s': Sys, e: Epoch, t: Token)
    requires Private(s, s', e) && t in s.clusters
    ensures Orderly(s, s', t)
  {
  }

  lemma LocalRivals(env: Env, s: Sys, a: LocalAction)
    requires Inv(env, s) && CanLocally(env, s, a)
    ensures Calm(env, s, DoLocally(env, s, a))
  {
    var s' := DoLocally(env, s, a);
    LocalIsPrivate(env, s, a);
    hide Sound, Private, Calm, Potential, CanLocally, DoLocally;
    forall t | t in s.clusters ensures Holders(s', t) <= Potential(s, t) { HoldersCount(s, s', t); }
    PrivateIsCalm(env, s, s', s.nextEpoch);
  }

  lemma LocalIsPrivate(env: Env, s: Sys, a: LocalAction)
    requires CanLocally(env, s, a)
    ensures Private(s, DoLocally(env, s, a), s.nextEpoch) && DoLocally(env, s, a).cfg == s.cfg
  {
  }

  /** The parts of a calm step for which nodes and clusters stay as they are. */
  lemma CalmFrom(env: Env, s: Sys, s': Sys)
    requires NoneRegained(s, s') && (forall t | t in s.clusters :: Orderly(s, s', t)) && Supported(env, s, s')
    requires s'.cfg == s.cfg && s'.clusters == s.clusters
    ensures Calm(env, s, s')
  {
    hide NoneRegained, Orderly, Supported, Potential;
    forall t | t in s.clusters ensures Holders(s', t) <= Potential(s, t) { HoldersCount(s, s', t); }
  }

  lemma StartRivals(env: Env, s: Sys, owner: Node, view: set<Node>)
    requires Inv(env, s) && CanStep(env, s, Start(owner, view))
    ensures Calm(env, s, DoStep(env, s, Start(owner, view)))
  {
    var s' := DoStep(env, s, Start(owner, view));
    StartIsOrderly(env, s, owner, view);
    hide NoneRegained, Orderly, Weak, Sound;
    forall f | f in s'.cycles && Standing(env, s', f) ensures Unrivalled(env, s, s'.cycles[f].obs) {
      assert Unsuperseded(s, f) && Standing(env, s, f);
    }
    hide Standing, Unrivalled, Inv;
    CalmFrom(env, s, s');
  }

  lemma StartIsOrderly(env: Env, s: Sys, owner: Node, view: set<Node>)
    requires CanStep(env, s, Start(owner, view))
    ensures var s' := DoStep(env, s, Start(owner, view)); NoneRegained(s, s') && forall t | t in s.clusters :: Orderly(s, s', t)
  {
  }

  lemma AssertRivals(env: Env, s: Sys, e: Epoch, n: Node)
    requires Inv(env, s) && CanStep(env, s, Assert(e, n))
    ensures Calm(env, s, DoStep(env, s, Assert(e, n)))
  {
    var s' := DoStep(env, s, Assert(e, n));
    AssertIsOrderly(env, s, e, n);
    hide NoneRegained, Orderly, Weak, Sound;
    forall f | f in s'.cycles && Standing(env, s', f) ensures Unrivalled(env, s, s'.cycles[f].obs) {
      assert Unsuperseded(s, f) by { assert forall m | m in s.cycles[f].view :: Last(s', m, f); }
      assert Standing(env, s, f);
    }
    hide Standing, Unrivalled, Inv;
    CalmFrom(env, s, s');
  }

  lemma AssertIsOrderly(env: Env, s: Sys, e: Epoch, n: Node)
    requires CanStep(env, s, Assert(e, n))
    ensures var s' := DoStep(env, s, Assert(e, n)); NoneRegained(s, s') && forall t | t in s.clusters :: Orderly(s, s', t)
  {
  }

  lemma SurveyRivals(env: Env, s: Sys, e: Epoch, obs: Option<Token>, mismatch: bool)
    requires env.Ok() && Inv(env, s) && CanStep(env, s, Survey(e, obs, mismatch))
    ensures Calm(env, s, DoStep(env, s, Survey(e, obs, mismatch)))
  {
    var s' := DoStep(env, s, Survey(e, obs, mismatch));
    SurveyIsOrderly(env, s, e, obs, mismatch);
    hide Orderly, NoneRegained, Standing, Surveying, Unrivalled, Inv;
    forall f | f in s'.cycles && Standing(env, s', f) ensures Unrivalled(env, s, s'.cycles[f].obs) {
      SurveySupported(env, s, e, obs, mismatch, f);
    }
    CalmFrom(env, s, s');
  }

  lemma SurveySupported(env: Env, s: Sys, e: Epoch, obs: Option<Token>, mismatch: bool, f: Epoch)
    requires env.Ok() && Inv(env, s) && CanStep(env, s, Survey(e, obs, mismatch))
    requires var s' := DoStep(env, s, Survey(e, obs, mismatch)); f in s'.cycles && Standing(env, s', f)
    ensures Unrivalled(env, s, DoStep(env, s, Survey(e, obs, mismatch)).cycles[f].obs)
  {
    var s' := DoStep(env, s, Survey(e, obs, mismatch));
    hide Weak, FullyHealthy, Ready, Healthy, Sound;
    assert Unsuperseded(s, f) by { assert forall m | m in s.cycles[f].view :: Last(s', m, f); }
    if f == e { SurveyedUnrivalled(env, s, e, obs.value); } else { assert Standing(env, s, f); }
  }

  lemma SurveyIsOrderly(env: Env, s: Sys, e: Epoch, obs: Option<Token>, mismatch: bool)
    requires CanStep(env, s, Survey(e, obs, mismatch))
    ensures var s' := DoStep(env, s, Survey(e, obs, mismatch)); NoneRegained(s, s') && forall t | t in s.clusters :: Orderly(s, s', t)
  {
    hide FullyHealthy, Ready, Healthy;
  }

  lemma HoldersCount(s: Sys, s': Sys, t: Token)
    requires t in s.clusters && s'.cfg == s.cfg
    ensures Holders(s', t) <= Potential(s, t)
  {
  }

  /** While a leader with a quorum of peers is unsuperseded, no other cluster than the one that it finds with a
      quorum can gather one: the rest of the machines is too few, and a creation that has not stopped
      its nodes yet needs one of the leader's peers. */
  lemma SurveyedUnrivalled(env: Env, s: Sys, e: Epoch, o: Token)
    requires env.Ok() && Sound(env, s) && Unsuperseded(s, e) && s.cycles[e].pc.Asserting? && |s.cycles[e].view| >= env.Q()
    requires Quorate(s, o)
    ensures Unrivalled(env, s, Some(o))
  {
    assert ClusterShape(env, s, o);
    RunningIsHeld(env, s, o);
    forall t | t in s.clusters && t != o ensures Weak(env, s, t) {
      forall n | n in Running(s, o) ensures n !in Potential(s, t) { RunningElsewhere(env, s, e, o, t, n); }
      FewOutside(env, s, t, Running(s, o));
    }
  }

  lemma RunningElsewhere(env: Env, s: Sys, e: Epoch, o: Token, t: Token, n: Node)
    requires env.Ok() && Sound(env, s) && Unsuperseded(s, e) && s.cycles[e].pc.Asserting? && |s.cycles[e].view| >= env.Q()
    requires o in s.clusters && t in s.clusters && t != o && n in s.cfg && s.cfg[n].token == o
    ensures n !in Potential(s, t)
  {
    if n in Joiners(s, t) {
      assert CycleInv(env, s, s.acc[n]) && Last(s, n, s.acc[n]);
    }
    NotReached(env, s, e, t, n);
  }

  lemma NotReached(env: Env, s: Sys, e: Epoch, t: Token, n: Node)
    requires env.Ok() && Sound(env, s) && Unsuperseded(s, e) && s.cycles[e].pc.Asserting? && |s.cycles[e].view| >= env.Q()
    requires t in s.clusters && n in s.cfg && s.cfg[n].token != t
    ensures n !in Reach(s, t)
  {
    hide Contents, Nursery, Held, Kind, Fence;
    if n in Reach(s, t) {
      var m := s.clusters[t].maker;
      assert CycleInv(env, s, m) && ProgressAt(s, s.cycles[m].pc, n);
      Overlap(env.nodes, s.cycles[e].view, s.cycles[m].pc.plan, env.Q());
    }
  }

  /** A quorum of machines that cannot belong to t leaves too few for it. */
  lemma FewOutside(env: Env, s: Sys, t: Token, quorum: set<Node>)
    requires env.Ok() && Sound(env, s) && t in s.clusters && quorum <= env.nodes && |quorum| >= env.Q()
    requires forall n | n in quorum :: n !in Potential(s, t)
    ensures Weak(env, s, t)
  {
    PotentialIsKnown(env, s, t);
    if !Weak(env, s, t) { Overlap(env.nodes, quorum, Potential(s, t), env.Q()); }
  }

  lemma PotentialIsKnown(env: Env, s: Sys, t: Token)
    requires Sound(env, s) && t in s.clusters
    ensures Potential(s, t) <= env.nodes
  {
    ReachIsKnown(env, s, t);
    JoinersAreKnown(env, s, t);
  }

  lemma ReachIsKnown(env: Env, s: Sys, t: Token)
    requires Sound(env, s) && t in s.clusters
    ensures Reach(s, t) <= env.nodes
  {
    hide Contents, Nursery, Held, Kind, Fence, Progress;
    assert ClusterShape(env, s, t);
    if s.clusters[t].maker in s.cycles { assert CycleInv(env, s, s.clusters[t].maker); }
  }

  lemma JoinersAreKnown(env: Env, s: Sys, t: Token)
    requires Sound(env, s)
    ensures Joiners(s, t) <= env.nodes
  {
    hide Contents, Nursery, Held, Kind, Fence, Progress;
    forall n | n in Joiners(s, t) ensures n in env.nodes { assert CycleInv(env, s, s.acc[n]); }
  }

  predicate OnRecord(a: CycleAction) {
    !a.Start? && !a.Assert? && !a.Survey?
  }

  /** The other steps of a cycle change its record alone. */
  lemma ChoiceRivals(env: Env, s: Sys, a: CycleAction)
    requires Inv(env, s) && CanStep(env, s, a) && OnRecord(a)
    ensures Calm(env, s, DoStep(env, s, a))
  {
    var s' := DoStep(env, s, a);
    ChoiceIsPrivate(env, s, a);
    hide CanStep, DoStep, Sound, Private, Calm, Potential;
    forall t | t in s.clusters ensures Holders(s', t) <= Potential(s, t) { HoldersCount(s, s', t); }
    PrivateIsCalm(env, s, s', a.e);
  }

  lemma ChoiceIsPrivate(env: Env, s: Sys, a: CycleAction)
    requires CanStep(env, s, a) && OnRecord(a)
    ensures Private(s, DoStep(env, s, a), a.e) && DoStep(env, s, a).cfg == s.cfg
  {
  }

  /** A cluster that e starts is weak while another leader with a quorum of peers is unsuperseded. */
  lemma CreateRivals(env: Env, s: Sys, e: Epoch, t: Token, plan: set<Node>)
    requires env.Ok() && Inv(env, s) && CanStep(env, s, ChooseCreate(e, t, plan))
    ensures Rivals(env, DoStep(env, s, ChooseCreate(e, t, plan)))
  {
    var s' := DoStep(env, s, ChooseCreate(e, t, plan));
    assert Rivals(env, s);
    hide Rivals, Weak, Standing, Sound, Calm;
    ChoiceRivals(env, s, ChooseCreate(e, t, plan));
    CalmWeak(env, s, s');
    StartedWeakened(env, s, e, t, plan);
    CalmSupports(env, s, s');
    RivalsFrom(env, s, s');
  }

  lemma CalmSupports(env: Env, s: Sys, s': Sys)
    requires Calm(env, s, s')
    ensures Supported(env, s, s')
  {
  }

  lemma StartedWeakened(env: Env, s: Sys, e: Epoch, t: Token, plan: set<Node>)
    requires env.Ok() && Inv(env, s) && CanStep(env, s, ChooseCreate(e, t, plan))
    requires forall u | u in s.clusters && Weak(env, s, u) :: Weak(env, DoStep(env, s, ChooseCreate(e, t, plan)), u)
    ensures Weakened(env, s, DoStep(env, s, ChooseCreate(e, t, plan)))
  {
    hide Inv, Weak, Standing;
    var s' := DoStep(env, s, ChooseCreate(e, t, plan));
    forall f | f in s'.cycles && Standing(env, s', f) ensures Weak(env, s', t) { StartedIsWeak(env, s, e, t, plan, f); }
  }

  lemma StartedIsWeak(env: Env, s: Sys, e: Epoch, t: Token, plan: set<Node>, f: Epoch)
    requires env.Ok() && Inv(env, s) && CanStep(env, s, ChooseCreate(e, t, plan))
    requires var s' := DoStep(env, s, ChooseCreate(e, t, plan)); f in s'.cycles && Standing(env, s', f)
    ensures Weak(env, DoStep(env, s, ChooseCreate(e, t, plan)), t)
  {
    var s' := DoStep(env, s, ChooseCreate(e, t, plan));
    ProposalKeepsQuorum(|s.cycles[e].view|, env.memberCount);
    Overlap(env.nodes, s.cycles[f].view, plan, env.Q());
    var n :| n in s.cycles[f].view && n in plan;
    assert Last(s', n, f) && !Last(s', n, e);
    assert Reach(s', t) == {};
    NobodyJoins(env, s, t);
    assert Joiners(s', t) == {};
    assert Holders(s', t) == {};
    assert Potential(s', t) == {};
  }

  lemma NobodyJoins(env: Env, s: Sys, t: Token)
    requires Sound(env, s) && t !in s.clusters
    ensures forall g | g in s.cycles :: s.cycles[g].obs != Some(t)
  {
    forall g | g in s.cycles ensures s.cycles[g].obs != Some(t) { assert CycleInv(env, s, g); }
  }

  // ---------------------------------------------------------------- requests

  lemma RequestRivals(env: Env, s: Sys, e: Epoch, n: Node, r: Request)
    requires env.Ok() && Inv(env, s) && CanRequest(s, e, n, r)
    ensures Calm(env, s, DoRequest(s, e, n, r))
  {
    MakerKnows(env, s, e);
    hide Inv, Calm;
    RequestIsPrivate(s, e, n, r);
    hide Private;
    forall t | t in s.clusters ensures Holders(DoRequest(s, e, n, r), t) <= Potential(s, t) { RequestHolders(s, e, n, r, t); }
    hide CanRequest, Potential;
    PrivateIsCalm(env, s, DoRequest(s, e, n, r), e);
  }

  ghost predicate Makes(s: Sys, e: Epoch) {
    && e in s.cycles
    && (s.cycles[e].pc.Creating? ==>
          s.cycles[e].pc.plan != {} && s.cycles[e].pc.token in s.clusters && s.clusters[s.cycles[e].pc.token].maker == e)
  }

  lemma MakerKnows(env: Env, s: Sys, e: Epoch)
    requires env.Ok() && Sound(env, s) && e in s.cycles
    ensures Makes(s, e)
  {
    assert CycleInv(env, s, e);
  }

  lemma RequestIsPrivate(s: Sys, e: Epoch, n: Node, r: Request)
    requires CanRequest(s, e, n, r) && Makes(s, e)
    ensures Private(s, DoRequest(s, e, n, r), e)
  {
    var s' := DoRequest(s, e, n, r);
    if s.cycles[e].pc.Creating? { CreationFollows(s, e, n, r); } else { RecordFollows(s, e, n, r); }
    hide Follows;
    if e in s'.cycles { assert s'.cycles == s.cycles[e := s'.cycles[e]]; }
  }

  lemma CreationFollows(s: Sys, e: Epoch, n: Node, r: Request)
    requires CanRequest(s, e, n, r) && Makes(s, e) && s.cycles[e].pc.Creating?
    ensures e in DoRequest(s, e, n, r).cycles ==> Follows(s, e, s.cycles[e], DoRequest(s, e, n, r).cycles[e])
  {
  }

  lemma RecordFollows(s: Sys, e: Epoch, n: Node, r: Request)
    requires CanRequest(s, e, n, r) && e in s.cycles && !s.cycles[e].pc.Creating?
    ensures e in DoRequest(s, e, n, r).cycles ==> Follows(s, e, s.cycles[e], DoRequest(s, e, n, r).cycles[e])
  {
  }

  /** A node comes to a cluster only by a commit or a join that was to be expected. */
  lemma RequestHolders(s: Sys, e: Epoch, n: Node, r: Request, t: Token)
    requires CanRequest(s, e, n, r) && Makes(s, e) && t in s.clusters
    ensures Holders(DoRequest(s, e, n, r), t) <= Potential(s, t)
  {
    var s' := DoRequest(s, e, n, r);
    if r == Commit && s.cycles[e].pc.token == t {
      assert Holders(s', t) == Holders(s, t) + {n} && n in Reach(s, t);
    } else if r == Join && s.cycles[e].obs == Some(t) {
      assert Joins(s, e, n, t) && n in Joiners(s, t);
      assert Holders(s', t) == Holders(s, t) + {n};
    } else {
      assert Holders(s', t) <= Holders(s, t);
    }
  }

  // ---------------------------------------------------------------- unfenced writes

  lemma WriteRivals(env: Env, s: Sys, e: Epoch, w: Write)
    requires Inv(env, s) && CanWrite(s, e, w) && !w.AddMember?
    ensures Calm(env, s, DoWrite(s, e, w))
  {
    var s' := DoWrite(s, e, w);
    WriteIsPrivate(s, e, w);
    hide CanWrite, DoWrite, Sound, Private, Calm, Potential;
    forall t | t in s.clusters ensures Holders(s', t) <= Potential(s, t) { HoldersCount(s, s', t); }
    PrivateIsCalm(env, s, s', e);
  }

  lemma WriteIsPrivate(s: Sys, e: Epoch, w: Write)
    requires CanWrite(s, e, w) && !w.AddMember?
    ensures Private(s, DoWrite(s, e, w), e) && DoWrite(s, e, w).cfg == s.cfg
  {
  }

  /** Only a cluster that has a quorum grows, so no weak one does. */
  lemma AddMemberRivals(env: Env, s: Sys, e: Epoch)
    requires env.Ok() && Inv(env, s) && CanWrite(s, e, AddMember)
    ensures Rivals(env, DoWrite(s, e, AddMember))
  {
    GrownIsNotWeak(env, s, e);
    hide Weak, Standing, Sound, Quorate;
    GrowthSupported(env, s, e);
    GrowthWeakened(env, s, e);
    hide Supported, Weakened, Rivals;
    RivalsFrom(env, s, DoWrite(s, e, AddMember));
  }

  lemma GrownIsNotWeak(env: Env, s: Sys, e: Epoch)
    requires Shape(env, s) && CanWrite(s, e, AddMember)
    ensures !Weak(env, s, s.cycles[e].obs.value)
  {
    assert ClusterShape(env, s, s.cycles[e].obs.value);
    QuorateIsNotWeak(env, s, s.cycles[e].obs.value);
  }

  lemma GrowthWeakened(env: Env, s: Sys, e: Epoch)
    requires CanWrite(s, e, AddMember) && !Weak(env, s, s.cycles[e].obs.value)
    ensures Weakened(env, s, DoWrite(s, e, AddMember))
  {
    hide Weak, Standing;
    forall t | t in s.clusters && Weak(env, s, t) ensures Weak(env, DoWrite(s, e, AddMember), t) {
      OthersDoNotGrow(env, s, e, t);
    }
  }

  lemma GrowthSupported(env: Env, s: Sys, e: Epoch)
    requires Rivals(env, s) && CanWrite(s, e, AddMember)
    ensures Supported(env, s, DoWrite(s, e, AddMember))
  {
    var s' := DoWrite(s, e, AddMember);
    hide Weak;
    forall f | f in s'.cycles && Standing(env, s', f) ensures Unrivalled(env, s, s'.cycles[f].obs) {
      assert Unsuperseded(s, f) by { assert forall m | m in s.cycles[f].view :: Last(s', m, f); }
      assert Standing(env, s, f);
    }
  }

  lemma OthersDoNotGrow(env: Env, s: Sys, e: Epoch, t: Token)
    requires CanWrite(s, e, AddMember) && t in s.clusters && s.cycles[e].obs != Some(t) && Weak(env, s, t)
    ensures Weak(env, DoWrite(s, e, AddMember), t)
  {
    var s' := DoWrite(s, e, AddMember);
    assert Orderly(s, s', t);
    assert Holders(s', t) == Holders(s, t);
    WeakStays(env, s, s', t);
  }

  lemma AddCommandRivals(env: Env, s: Sys, e: Epoch)
    requires env.Ok() && Inv(env, s) && CanWrite(s, e, AddCommand) && Unsuperseded(s, e)
    ensures Rivals(env, DoWrite(s, e, AddCommand))
  {
    var s' := DoWrite(s, e, AddCommand);
    QueueingIsCurrent(env, s, e);
    WriteRivals(env, s, e, AddCommand);
    CalmWeak(env, s, s');
    hide Weak, Standing;
    forall f | f in s'.cycles && Standing(env, s', f) ensures Unrivalled(env, s', s'.cycles[f].obs) {
      assert Unrivalled(env, s, s'.cycles[f].obs);
    }
  }

  /** A change of the current cluster leaves no rival to the one that takes over. */
  lemma SettledRivals(env: Env, s: Sys, s': Sys, t: Token)
    requires Unrivalled(env, s, Some(t)) && Calm(env, s, s') && s'.clusters == s.clusters && s'.cur == t
    ensures Rivals(env, s')
  {
    CalmWeak(env, s, s');
    hide Weak, Standing;
    forall f | f in s'.cycles && Standing(env, s', f) ensures Unrivalled(env, s', s'.cycles[f].obs) {
      assert Unrivalled(env, s, s'.cycles[f].obs);
    }
  }

  /** A cluster whose maker still holds all of its plan is unrivalled. */
  lemma MadeUnrivalled(env: Env, s: Sys, e: Epoch, t: Token, plan: set<Node>)
    requires env.Ok() && Sound(env, s) && Unsuperseded(s, e) && PlanKnown(env, s, e, t, plan)
    requires forall n | n in plan :: n in s.cfg && s.cfg[n].token == t
    requires !s.cycles[e].pc.Expanding? && (s.cycles[e].pc.Creating? ==> s.cycles[e].pc.token == t)
    ensures Unrivalled(env, s, Some(t))
  {
    forall u | u in s.clusters && u != t ensures Weak(env, s, u) {
      forall n | n in plan ensures n !in Potential(s, u) { assert Last(s, n, e); }
      FewOutside(env, s, u, plan);
    }
  }

  lemma MarkRivals(env: Env, s: Sys, e: Epoch)
    requires env.Ok() && Inv(env, s) && CanWrite(s, e, Mark) && Unsuperseded(s, e)
    ensures Rivals(env, DoWrite(s, e, Mark))
  {
    var pc := s.cycles[e].pc;
    assert CycleInv(env, s, e);
    forall n | n in pc.plan ensures n in s.cfg && s.cfg[n].token == pc.token {
      assert Last(s, n, e) && ProgressAt(s, pc, n);
    }
    MadeUnrivalled(env, s, e, pc.token, pc.plan);
    WriteRivals(env, s, e, Mark);
    SettledRivals(env, s, DoWrite(s, e, Mark), pc.token);
  }

  lemma RemoveCommandRivals(env: Env, s: Sys, e: Epoch)
    requires env.Ok() && Inv(env, s) && CanWrite(s, e, RemoveCommand) && Unsuperseded(s, e)
    ensures Rivals(env, DoWrite(s, e, RemoveCommand))
  {
    RestoredUnrivalled(env, s, e);
    WriteRivals(env, s, e, RemoveCommand);
    SettledRivals(env, s, DoWrite(s, e, RemoveCommand), s.cycles[e].pc.target);
  }

  lemma RestoredUnrivalled(env: Env, s: Sys, e: Epoch)
    requires env.Ok() && Inv(env, s) && CanWrite(s, e, RemoveCommand) && Unsuperseded(s, e)
    ensures Unrivalled(env, s, Some(s.cycles[e].pc.target))
  {
    var pc := s.cycles[e].pc;
    assert CycleInv(env, s, e);
    if pc.plan == {} {
      assert Standing(env, s, e);
    } else {
      forall n | n in pc.plan ensures n in s.cfg && s.cfg[n].token == pc.target { assert Last(s, n, e); }
      MadeUnrivalled(env, s, e, pc.target, pc.plan);
    }
  }

  lemma CopyRivals(env: Env, s: Sys, e: Epoch, k: string)
    requires Inv(env, s) && CanWrite(s, e, Copy(k))
    ensures Rivals(env, DoWrite(s, e, Copy(k)))
  {
    CopySameEra(s, e, k);
    hide Calm, Rivals, CanWrite, Sound, SameEra, DoWrite;
    WriteRivals(env, s, e, Copy(k));
    CalmStep(env, s, DoWrite(s, e, Copy(k)));
  }

  lemma CopySameEra(s: Sys, e: Epoch, k: string)
    requires CanWrite(s, e, Copy(k))
    ensures SameEra(s, DoWrite(s, e, Copy(k)))
  {
  }
}
