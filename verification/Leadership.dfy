/** The peers a node knows, and whose leadership it accepts. */
module Leadership {
  import opened Options
  import opened Sets
  import Lexical

  type PeerId = string

  datatype PeerInfo = PeerInfo(id: PeerId, endpoints: seq<string>)

  /** A known peer: its last report, if any, and when that came. */
  datatype Peer = Peer(lastInfo: Option<PeerInfo>, lastPingTime: int)

  type Peers = map<PeerId, Peer>

  datatype View = View(healthy: seq<PeerInfo>, leader: PeerId, token: string)

  /** What a bidder gets back from a peer: an error, an acceptance, or a rejection with the peer's view. */
  datatype Reply = Failed | Accepted | Rejected(healthy: seq<PeerInfo>)

  const SECOND: int := 1000000000
  const HEALTHY_TIMEOUT: int := 60 * SECOND

  predicate IsHealthy(p: Peer, now: int) {
    p.lastInfo.Some? && now - p.lastPingTime <= HEALTHY_TIMEOUT
  }

  function HealthyIds(peers: Peers, now: int): set<PeerId> {
    set id | id in peers && IsHealthy(peers[id], now)
  }

  function Ids(infos: seq<PeerInfo>): set<PeerId> {
    set i | 0 <= i < |infos| :: infos[i].id
  }

  /** Every report is filed under the identity it carries. */
  predicate Identified(peers: Peers) {
    forall id | id in peers && peers[id].lastInfo.Some? :: peers[id].lastInfo.value.id == id
  }

  /** `infos` reports every id of `ids` once, as known in `peers`. */
  predicate Reports(infos: seq<PeerInfo>, peers: Peers, ids: set<PeerId>) {
    && Ids(infos) == ids
    && (forall i, j | 0 <= i < j < |infos| :: infos[i].id != infos[j].id)
    && (forall i | 0 <= i < |infos| :: infos[i].id in peers && peers[infos[i].id].lastInfo == Some(infos[i]))
  }

  /** after knows everything before knew, unchanged, and the peers of the view, the new ones as of now. */
  predicate ExtendedBy(before: Peers, after: Peers, view: seq<PeerInfo>, now: int) {
    && after.Keys == before.Keys + Ids(view)
    && (forall id | id in before :: after[id] == before[id])
    && (forall id | id in after && id !in before ::
          after[id].lastInfo.Some? && after[id].lastPingTime == now && FirstWith(view, id, after[id].lastInfo.value))
  }

  predicate FirstWith(view: seq<PeerInfo>, id: PeerId, info: PeerInfo) {
    exists i :: 0 <= i < |view| && view[i] == info && info.id == id && forall j | 0 <= j < i :: view[j].id != id
  }

  /** A node accepts a bid exactly when the view is there, is not empty, and has every peer that was
      healthy for the node before it saw the view. */
  predicate Accepts(peers: Peers, view: Option<View>, now: int) {
    view.Some? && view.value.healthy != [] && HealthyIds(peers, now) <= Ids(view.value.healthy)
  }

  /** The peer's answer ended a bid: a rejection also taught the bidder the peers of its sender. */
  predicate LearnedFrom(before: Peers, after: Peers, replies: map<PeerId, Reply>, id: PeerId, now: int) {
    && id in replies && !replies[id].Accepted?
    && if replies[id].Rejected? then ExtendedBy(before, after, replies[id].healthy, now) else after == before
  }

  class Server {
    const myId: PeerId
    var peers: Peers
    var leadership: Option<View>

    ghost predicate Valid()
      reads this
    {
      Identified(peers)
    }

    constructor (myId: PeerId)
      ensures Valid() && this.myId == myId && peers == map[] && leadership == None
    {
      this.myId := myId;
      peers := map[];
      leadership := None;
    }

    method UpdateFromDiscovery(id: PeerId)
      requires Valid()
      modifies this`peers
      ensures Valid() && peers == map[id := Peer(None, 0)] + old(peers)
    {
      if id !in peers {
        peers := peers[id := Peer(None, 0)];
      }
    }

    /** The answer to a ping sent to `id`. */
    method UpdatePeerInfo(id: PeerId, info: PeerInfo, now: int)
      requires Valid() && id in peers
      modifies this`peers
      ensures Valid() && peers.Keys == old(peers).Keys
      ensures forall other | other in peers && other != id :: peers[other] == old(peers)[other]
      ensures peers[id] == if info.id == id then Peer(Some(info), now) else old(peers)[id]
    {
      if info.id != id {
        return;
      }
      peers := peers[id := Peer(Some(info), now)];
    }

    method UpdateFromPingRequest(info: Option<PeerInfo>, now: int)
      requires Valid()
      modifies this`peers
      ensures Valid()
      ensures peers == if info.Some? && info.value.id != "" then old(peers)[info.value.id := Peer(info, now)] else old(peers)
    {
      if info.None? || info.value.id == "" {
        return;
      }
      var id := info.value.id;
      if id !in peers {
        peers := peers[id := Peer(Some(info.value), now)];
      } else {
        UpdatePeerInfo(id, info.value, now);
        assert peers == old(peers)[id := Peer(info, now)];
      }
    }

    /** The healthy peers, each with its last report, in no particular order. */
    method SnapshotHealthy(now: int) returns (infos: seq<PeerInfo>)
      requires Valid()
      ensures Reports(infos, peers, HealthyIds(peers, now))
    {
      infos := [];
      var todo := peers.Keys;
      while todo != {}
        invariant todo <= peers.Keys
        invariant Reports(infos, peers, HealthyIds(peers, now) - todo)
        decreases todo
      {
        var id := Pick(todo);
        ghost var before := infos;
        if IsHealthy(peers[id], now) {
          infos := infos + [peers[id].lastInfo.value];
          IdsSnoc(before, peers[id].lastInfo.value);
        }
        todo := todo - {id};
        assert HealthyIds(peers, now) - todo ==
               HealthyIds(peers, now) - (todo + {id}) + (if IsHealthy(peers[id], now) then {id} else {});
      }
    }

    method AddPeersFromView(view: seq<PeerInfo>, now: int)
      requires Valid()
      modifies this`peers
      ensures Valid() && ExtendedBy(old(peers), peers, view, now)
    {
      for i := 0 to |view|
        invariant Valid() && ExtendedBy(old(peers), peers, view[..i], now)
      {
        var p := view[i];
        ExtendedSnoc(old(peers), peers, view[..i], p, now);
        if p.id !in peers {
          peers := peers[p.id := Peer(Some(p), now)];
        }
        assert view[..i + 1] == view[..i] + [p];
      }
      assert view[..|view|] == view;
    }

    /** A bid by another node (or this one). */
    method LeaderNotification(view: Option<View>, now: int) returns (r: Reply)
      requires Valid()
      modifies this
      ensures Valid()
      ensures r.Failed? <==> view.None? || view.value.healthy == []
      ensures r.Failed? ==> unchanged(this)
      ensures !r.Failed? ==> ExtendedBy(old(peers), peers, view.value.healthy, now)
      ensures r.Accepted? <==> Accepts(old(peers), view, now)
      ensures leadership == if r.Accepted? then view else old(leadership)
      ensures r.Rejected? ==> Reports(r.healthy, peers, HealthyIds(peers, now))
      ensures r.Rejected? ==> exists id :: id in old(peers) && id in Ids(r.healthy) && id !in Ids(view.value.healthy)
    {
      if view.None? || view.value.healthy == [] {
        return Failed;
      }
      AddPeersFromView(view.value.healthy, now);

      var viewIds := Ids(view.value.healthy);
      var reject := false;
      ghost var known := peers;
      var todo := peers.Keys;
      while todo != {} && !reject
        invariant peers == known && leadership == old(leadership)
        invariant todo <= peers.Keys
        invariant !reject ==> HealthyIds(peers, now) <= viewIds + todo
        invariant reject ==> exists id :: id in HealthyIds(peers, now) && id !in viewIds
        decreases todo, !reject
      {
        var id := Pick(todo);
        if id !in viewIds && IsHealthy(peers[id], now) {
          assert id in HealthyIds(peers, now);
          reject := true;
        }
        todo := todo - {id};
      }
      assert HealthyIds(old(peers), now) <= HealthyIds(peers, now);
      assert HealthyIds(peers, now) <= HealthyIds(old(peers), now) + viewIds;
      if reject {
        var healthy := SnapshotHealthy(now);
        return Rejected(healthy);
      }
      leadership := view;
      return Accepted;
    }

    method IsLeader(token: string) returns (r: bool)
      ensures r <==> leadership.Some? && leadership.value.token == token
    {
      if leadership.None? {
        return false;
      }
      return leadership.value.token == token;
    }

    /** A bid of this node under a fresh token: `replies` are the answers of the healthy peers, asked in
        order until one does not accept. On success `acked` has every healthy peer once. */
    method BecomeLeader(token: string, replies: map<PeerId, Reply>, now: int) returns (view: View, acked: Option<seq<PeerId>>)
      requires Valid()
      requires HealthyIds(peers, now) <= replies.Keys
      modifies this`peers
      ensures Valid()
      ensures Reports(view.healthy, old(peers), HealthyIds(old(peers), now)) && view.leader == myId && view.token == token
      ensures acked.Some? <==> forall id | id in HealthyIds(old(peers), now) :: replies[id].Accepted?
      ensures acked.Some? ==>
                && peers == old(peers)
                && |acked.value| == |HealthyIds(old(peers), now)|
                && forall id :: id in acked.value <==> id in HealthyIds(old(peers), now)
      ensures acked.None? ==> exists id :: id in HealthyIds(old(peers), now) && LearnedFrom(old(peers), peers, replies, id, now)
    {
      var infos := SnapshotHealthy(now);
      view := View(infos, myId, token);
      var ids: seq<PeerId> := [];
      for i := 0 to |infos|
        invariant peers == old(peers)
        invariant ids == seq(i, j requires 0 <= j < i => infos[j].id)
        invariant forall j | 0 <= j < i :: replies[infos[j].id].Accepted?
      {
        var id := infos[i].id;
        match replies[id] {
          case Failed =>
            assert id in Ids(infos) && LearnedFrom(old(peers), peers, replies, id, now);
            return view, None;
          case Rejected(healthy) =>
            AddPeersFromView(healthy, now);
            assert id in Ids(infos) && LearnedFrom(old(peers), peers, replies, id, now);
            return view, None;
          case Accepted =>
            ids := ids + [id];
        }
      }
      DistinctSize(infos);
      assert forall i | 0 <= i < |ids| :: ids[i] == infos[i].id;
      assert forall id | id in Ids(infos) :: id in ids;
      return view, Some(ids);
    }

    /** The leader's claim in every cycle: all healthy peers are asked, in order, until one does not accept. */
    method AssertLeadership(token: string, replies: map<PeerId, Reply>, now: int) returns (view: View, ok: bool)
      requires Valid()
      requires HealthyIds(peers, now) <= replies.Keys
      modifies this`peers
      ensures Valid()
      ensures Reports(view.healthy, old(peers), HealthyIds(old(peers), now)) && view.leader == myId && view.token == token
      ensures ok <==> forall id | id in HealthyIds(old(peers), now) :: replies[id].Accepted?
      ensures ok ==> peers == old(peers)
      ensures !ok ==> exists id :: id in HealthyIds(old(peers), now) && LearnedFrom(old(peers), peers, replies, id, now)
    {
      var infos := SnapshotHealthy(now);
      view := View(infos, myId, token);
      for i := 0 to |infos|
        invariant peers == old(peers)
        invariant forall j | 0 <= j < i :: replies[infos[j].id].Accepted?
      {
        var id := infos[i].id;
        match replies[id] {
          case Failed =>
            assert id in Ids(infos) && LearnedFrom(old(peers), peers, replies, id, now);
            return view, false;
          case Rejected(healthy) =>
            AddPeersFromView(healthy, now);
            assert id in Ids(infos) && LearnedFrom(old(peers), peers, replies, id, now);
            return view, false;
          case Accepted =>
        }
      }
      return view, true;
    }
  }

  lemma IdsSnoc(infos: seq<PeerInfo>, info: PeerInfo)
    ensures Ids(infos + [info]) == Ids(infos) + {info.id}
  {
    var all := infos + [info];
    assert all[|infos|] == info;
    forall id | id in Ids(infos) ensures id in Ids(all) {
      var i :| 0 <= i < |infos| && infos[i].id == id;
      assert all[i].id == id;
    }
  }

  lemma {:induction false} DistinctSize(infos: seq<PeerInfo>)
    requires forall i, j | 0 <= i < j < |infos| :: infos[i].id != infos[j].id
    ensures |Ids(infos)| == |infos|
  {
    if infos != [] {
      var n := |infos| - 1;
      DistinctSize(infos[..n]);
      IdsSnoc(infos[..n], infos[n]);
      assert infos == infos[..n] + [infos[n]];
    } else {
      assert Ids(infos) == {};
    }
  }

  lemma ExtendedSnoc(before: Peers, after: Peers, view: seq<PeerInfo>, p: PeerInfo, now: int)
    requires ExtendedBy(before, after, view, now)
    ensures ExtendedBy(before, if p.id in after then after else after[p.id := Peer(Some(p), now)], view + [p], now)
  {
    var after' := if p.id in after then after else after[p.id := Peer(Some(p), now)];
    IdsSnoc(view, p);
    var all := view + [p];
    assert all[|view|] == p;
    forall id | id in after' && id !in before ensures FirstWith(all, id, after'[id].lastInfo.value) {
      if id in after {
        var i :| 0 <= i < |view| && view[i] == after[id].lastInfo.value && view[i].id == id && forall j | 0 <= j < i :: view[j].id != id;
        assert all[i] == view[i];
      } else {
        assert forall j | 0 <= j < |view| :: view[j].id in Ids(view);
      }
    }
  }

  // Whom a node accepts.

  /** The controller acts only if it finds itself first among the peers it sees, by id. */
  predicate IsLowest(id: PeerId, ids: set<PeerId>) {
    id in ids && forall other | other in ids :: Lexical.Leq(id, other)
  }

  // What a node hears over time.

  /** The reports, discoveries and bids that reach a node, and when. */
  datatype Event = Ping(info: PeerInfo) | Discover(id: PeerId) | Notify(view: View)

  datatype Heard = Heard(event: Event, now: int)

  /** How the known peers change, as the methods of Server promise. */
  predicate PeersStep(before: Peers, h: Heard, after: Peers) {
    match h.event
    case Ping(info) => after == if info.id != "" then before[info.id := Peer(Some(info), h.now)] else before
    case Discover(id) => after == map[id := Peer(None, 0)] + before
    case Notify(view) => if view.healthy == [] then after == before else ExtendedBy(before, after, view.healthy, h.now)
  }

  predicate Trace(peers: seq<Peers>, events: seq<Heard>) {
    && |peers| == |events| + 1
    && forall i | 0 <= i < |events| :: PeersStep(peers[i], events[i], peers[i + 1])
  }

  predicate PingOf(h: Heard, a: PeerId) {
    h.event.Ping? && h.event.info.id == a
  }

  /** Event k is the last report of a before event j, and at most the timeout old then. */
  predicate HeardFrom(events: seq<Heard>, k: nat, j: nat, a: PeerId) {
    && k < j < |events| && a != "" && PingOf(events[k], a) && events[j].now - events[k].now <= HEALTHY_TIMEOUT
    && forall i | k < i < j :: !PingOf(events[i], a)
  }

  lemma {:induction false} LastReport(peers: seq<Peers>, events: seq<Heard>, k: nat, j: nat, a: PeerId)
    requires Trace(peers, events) && k < j <= |events| && a != "" && PingOf(events[k], a)
    requires forall i | k < i < j :: !PingOf(events[i], a)
    ensures a in peers[j] && peers[j][a] == Peer(Some(events[k].event.info), events[k].now)
  {
    assert PeersStep(peers[j - 1], events[j - 1], peers[j]);
    if k + 1 < j {
      LastReport(peers, events, k, j - 1, a);
    }
  }

  /** The bid at event j is accepted. */
  predicate AcceptedAt(peers: seq<Peers>, events: seq<Heard>, j: nat)
    requires |peers| == |events| + 1
  {
    j < |events| && events[j].event.Notify? && Accepts(peers[j], Some(events[j].event.view), events[j].now)
  }

  /** The event makes a known. */
  predicate Mentions(h: Heard, a: PeerId) {
    match h.event
    case Ping(info) => info.id == a && a != ""
    case Discover(id) => id == a
    case Notify(view) => a in Ids(view.healthy)
  }

  /** Event k is what the node knows of a before event j: its last report or, if it never reported, the bid
      that mentioned it first. */
  predicate FreshestOf(events: seq<Heard>, k: nat, j: nat, a: PeerId) {
    && k < j <= |events| && (forall i | k < i < j :: !PingOf(events[i], a) || a == "")
    && ((PingOf(events[k], a) && a != "")
        || (events[k].event.Notify? && Mentions(events[k], a) && forall i | 0 <= i < k :: !Mentions(events[i], a)))
  }

  lemma ExtendedIsKnown(before: Peers, after: Peers, h: Heard, a: PeerId)
    requires PeersStep(before, h, after) && !Mentions(h, a)
    ensures a in after <==> a in before
    ensures a in before ==> after[a] == before[a]
  {
  }

  lemma {:induction false} UnmentionedIsUnknown(peers: seq<Peers>, events: seq<Heard>, j: nat, a: PeerId)
    requires Trace(peers, events) && peers[0] == map[] && j <= |events| && forall i | 0 <= i < j :: !Mentions(events[i], a)
    ensures a !in peers[j]
  {
    if j > 0 {
      UnmentionedIsUnknown(peers, events, j - 1, a);
      ExtendedIsKnown(peers[j - 1], peers[j], events[j - 1], a);
    }
  }

  /** What is known of a peer after its freshest event: a report of that time. */
  lemma {:induction false} FreshestIsKnown(peers: seq<Peers>, events: seq<Heard>, k: nat, j: nat, a: PeerId)
    requires Trace(peers, events) && peers[0] == map[] && FreshestOf(events, k, j, a)
    ensures a in peers[j] && peers[j][a].lastInfo.Some? && peers[j][a].lastPingTime == events[k].now
  {
    assert PeersStep(peers[j - 1], events[j - 1], peers[j]);
    if k + 1 < j {
      FreshestIsKnown(peers, events, k, j - 1, a);
    } else {
      if events[k].event.Notify? {
        UnmentionedIsUnknown(peers, events, k, a);
      }
    }
  }

  /** Whoever has a report has a freshest event. */
  lemma {:induction false} KnownHasFreshest(peers: seq<Peers>, events: seq<Heard>, j: nat, a: PeerId) returns (k: nat)
    requires Trace(peers, events) && peers[0] == map[] && j <= |events| && a in peers[j] && peers[j][a].lastInfo.Some?
    ensures FreshestOf(events, k, j, a)
  {
    var i := j - 1;
    assert PeersStep(peers[i], events[i], peers[j]);
    if PingOf(events[i], a) && a != "" {
      k := i;
    } else if a in peers[i] {
      k := KnownHasFreshest(peers, events, i, a);
    } else {
      k := i;
      forall l | 0 <= l < i ensures !Mentions(events[l], a) { MentionedIsKnown(peers, events, l, i, a); }
    }
  }

  lemma {:induction false} MentionedIsKnown(peers: seq<Peers>, events: seq<Heard>, l: nat, j: nat, a: PeerId)
    requires Trace(peers, events) && l < j <= |events|
    ensures Mentions(events[l], a) ==> a in peers[j]
  {
    assert PeersStep(peers[j - 1], events[j - 1], peers[j]);
    if l + 1 < j {
      MentionedIsKnown(peers, events, l, j - 1, a);
    }
  }

  /** When a bid is accepted, by what the node has heard alone: exactly if its view is not empty and has every
      peer whose last report, or whose first mention in a bid if it never reported, is at most the timeout
      old. So a machine that is silent for longer stops no bid. */
  lemma WhenAccepted(peers: seq<Peers>, events: seq<Heard>, j: nat)
    requires Trace(peers, events) && peers[0] == map[] && j < |events| && events[j].event.Notify?
    ensures var view := events[j].event.view.healthy;
            AcceptedAt(peers, events, j) <==>
            view != [] && forall k: nat, a | FreshestOf(events, k, j, a) && events[j].now - events[k].now <= HEALTHY_TIMEOUT :: a in Ids(view)
  {
    var now, view := events[j].now, events[j].event.view.healthy;
    forall k: nat, a | FreshestOf(events, k, j, a) ensures a in HealthyIds(peers[j], now) <==> now - events[k].now <= HEALTHY_TIMEOUT {
      FreshestIsKnown(peers, events, k, j, a);
    }
    forall a | a in HealthyIds(peers[j], now)
      ensures exists k: nat :: FreshestOf(events, k, j, a) && now - events[k].now <= HEALTHY_TIMEOUT
    {
      var k := KnownHasFreshest(peers, events, j, a);
    }
  }

  /** View coverage: the view of an accepted bid has every peer that the node has heard from in time. So a
      bidder that found itself the lowest of its view is not above any of them. */
  lemma ViewCoverage(peers: seq<Peers>, events: seq<Heard>, k: nat, j: nat, a: PeerId)
    requires Trace(peers, events) && AcceptedAt(peers, events, j) && HeardFrom(events, k, j, a)
    ensures a in Ids(events[j].event.view.healthy)
    ensures IsLowest(events[j].event.view.leader, Ids(events[j].event.view.healthy)) ==> Lexical.Leq(events[j].event.view.leader, a)
  {
    LastReport(peers, events, k, j, a);
  }

  /** Two controllers that each find themselves the lowest of the view they assert are not both accepted by a
      node, at whatever times, that has heard from the one when it accepts the other. */
  lemma OneLeaderPerNode(peers: seq<Peers>, events: seq<Heard>, i: nat, j: nat, k: nat, l: nat)
    requires Trace(peers, events) && AcceptedAt(peers, events, i) && AcceptedAt(peers, events, j)
    requires var a, b := events[i].event.view, events[j].event.view;
             && IsLowest(a.leader, Ids(a.healthy)) && IsLowest(b.leader, Ids(b.healthy))
             && HeardFrom(events, k, i, b.leader) && HeardFrom(events, l, j, a.leader)
    ensures events[i].event.view.leader == events[j].event.view.leader
  {
    var a, b := events[i].event.view.leader, events[j].event.view.leader;
    ViewCoverage(peers, events, k, i, b);
    ViewCoverage(peers, events, l, j, a);
    Lexical.LeqAntisymmetric(a, b);
  }
}
