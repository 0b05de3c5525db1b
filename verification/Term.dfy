/** A leadership term: how the controller gets into it, and what it remembers of its members. */
module Term {
  import opened Options
  import opened Sets
  import Leadership
  import opened Controller
  import Quorum
  import Lexical

  /** What a cycle saw of etcd's members. */
  datatype Sighting = Sighting(now: int, members: set<MemberId>, healthy: set<MemberId>)

  datatype LeadershipState = LeadershipState(token: string, ackedPeers: set<PeerId>)

  /** Sighting k is the reason for the time remembered for a member: it was healthy then, or first seen
      in this term, and it has been unhealthy in every later sighting. */
  predicate LastGood(sightings: seq<Sighting>, id: MemberId, t: int, k: nat) {
    && k < |sightings| && sightings[k].now == t && id in sightings[k].members
    && (id in sightings[k].healthy || forall j | 0 <= j < k :: id !in sightings[j].members)
    && forall j | k < j < |sightings| :: !(id in sightings[j].members && id in sightings[j].healthy)
  }

  class EtcdController {
    const me: PeerId
    var leadership: Option<LeadershipState>
    var peerState: map<MemberId, int>
    /** All sightings of the current term, in order. */
    ghost var sightings: seq<Sighting>

    ghost predicate Valid()
      reads this
    {
      && (forall id | id in peerState :: exists k :: LastGood(sightings, id, peerState[id], k))
      && (forall j, id | 0 <= j < |sightings| && id in sightings[j].members :: id in peerState)
    }

    constructor (me: PeerId)
      ensures Valid() && this.me == me && leadership == None && sightings == []
    {
      this.me := me;
      leadership, peerState, sightings := None, map[], [];
    }

    /** Sorts the peers and looks for `me`: is it there, and first? */
    static method FindSelf(me: PeerId, peers: seq<PeerId>) returns (sorted: seq<PeerId>, lowest: bool)
      ensures |sorted| == |peers| && forall p :: p in sorted <==> p in peers
      ensures lowest <==> Leadership.IsLowest(me, Elements(peers))
    {
      sorted := Lexical.SortStrings(peers);
      SameElements(peers, sorted);
      FirstIsLowest(sorted, me);
      var found := false;
      for i := 0 to |sorted|
        invariant found <==> me in sorted[..i]
      {
        if sorted[i] == me {
          found := true;
        }
      }
      assert sorted[..|sorted|] == sorted;
      if !found {
        return sorted, false;
      }
      return sorted, sorted[0] == me;
    }

    /** The start of a cycle, over the ids of the healthy peers. `bid` is what a leadership bid returns if
        one is made now, and `asserted` says that every peer accepts the leader's token once more. The
        result is the number of peers that acknowledge the leader, if the cycle may go on. */
    method PassGate(peers: seq<PeerId>, bid: Option<LeadershipState>, asserted: bool) returns (acked: Option<nat>)
      requires Valid()
      requires forall i, j | 0 <= i < j < |peers| :: peers[i] != peers[j]
      modifies this
      ensures Valid()
      ensures acked.Some? <==>
                && old(leadership).Some? && asserted && Leadership.IsLowest(me, Elements(peers))
                && forall p | p in peers :: p in old(leadership).value.ackedPeers
      ensures acked.Some? ==> acked.value == |Elements(peers)| <= |old(leadership).value.ackedPeers|
      ensures leadership ==
                if !Leadership.IsLowest(me, Elements(peers)) then old(leadership)
                else if old(leadership).None? then bid
                else if asserted && exists p :: p in peers && p !in old(leadership).value.ackedPeers then None
                else old(leadership)
      ensures if Leadership.IsLowest(me, Elements(peers)) && old(leadership).None? && bid.Some? then sightings == [] && peerState == map[]
              else sightings == old(sightings) && peerState == old(peerState)
    {
      var sorted, lowest := FindSelf(me, peers);
      if !lowest {
        return None;
      }
      if leadership.None? {
        if bid.None? {
          return None;
        }
        leadership := bid;
        peerState := map[];
        sightings := [];
        return None;
      }
      if !asserted {
        return None;
      }
      var ackedPeerCount := 0;
      for i := 0 to |sorted|
        invariant unchanged(this) && ackedPeerCount == i
        invariant forall p | p in sorted[..i] :: p in leadership.value.ackedPeers
      {
        if sorted[i] !in leadership.value.ackedPeers {
          leadership := None;
          return None;
        }
        ackedPeerCount := ackedPeerCount + 1;
      }
      assert sorted[..|sorted|] == sorted;
      DistinctSize(peers);
      Quorum.SubsetSize(Elements(peers), leadership.value.ackedPeers);
      return Some(ackedPeerCount);
    }

    /** The bookkeeping of a cycle after it has looked at etcd. */
    method Watch(now: int, members: set<MemberId>, healthy: set<MemberId>)
      requires Valid()
      modifies this`peerState, this`sightings
      ensures Valid() && sightings == old(sightings) + [Sighting(now, members, healthy)]
    {
      ghost var before := peerState;
      var todo := members;
      while todo != {}
        invariant todo <= members && sightings == old(sightings)
        invariant peerState.Keys == before.Keys + (members - todo)
        invariant forall id | id in before && id in todo :: peerState[id] == before[id]
        invariant forall id | id in peerState && id !in todo ::
                    peerState[id] == if id in before && !(id in members && id in healthy) then before[id] else now
        decreases todo
      {
        var id := Pick(todo);
        if id !in peerState {
          peerState := peerState[id := now];
        }
        if id in healthy {
          peerState := peerState[id := now];
        }
        todo := todo - {id};
      }
      sightings := sightings + [Sighting(now, members, healthy)];
      forall id | id in peerState ensures exists k :: LastGood(sightings, id, peerState[id], k) {
        Remembered(old(sightings), before, Sighting(now, members, healthy), id, peerState[id]);
      }
      forall j, id | 0 <= j < |sightings| && id in sightings[j].members ensures id in peerState {
        assert j < |old(sightings)| ==> id in before;
      }
    }

    /** Which member to remove. Without `removeHealthy`, only one that has been unhealthy for the whole
        time since some sighting of this term at least the deadline ago. */
    method PickVictim(now: int, members: set<MemberId>, healthy: set<MemberId>, removeHealthy: bool)
      returns (victim: Option<MemberId>)
      requires Valid() && healthy <= members
      requires sightings != [] && sightings[|sightings| - 1].members == members && sightings[|sightings| - 1].healthy == healthy
      ensures victim.Some? ==> victim.value in members
      ensures victim.Some? && victim.value in healthy ==> removeHealthy && healthy == members
      ensures victim.None? && removeHealthy ==> members == {}
      ensures victim.Some? && !removeHealthy ==> LongUnhealthy(sightings, victim.value, now)
      ensures victim.None? && !removeHealthy ==>
                forall id | id in members && id !in healthy :: id in peerState && now - peerState[id] < REMOVE_UNHEALTHY_DEADLINE
    {
      victim := None;
      Quorum.SubsetSize(healthy, members);
      if |healthy| < |members| {
        var todo := members;
        while todo != {}
          invariant todo <= members
          invariant removeHealthy ==> members - todo <= healthy
          invariant forall id | id in members && id !in healthy && id !in todo ::
                      id in peerState && now - peerState[id] < REMOVE_UNHEALTHY_DEADLINE
          decreases todo
        {
          var id := Pick(todo);
          todo := todo - {id};
          if id !in healthy {
            if !removeHealthy {
              // The source stops the process if there is no entry; there always is one.
              var age := now - peerState[id];
              if age < REMOVE_UNHEALTHY_DEADLINE {
                continue;
              }
              assert exists k :: LastGood(sightings, id, peerState[id], k);
            }
            return Some(id);
          }
        }
      }
      if !removeHealthy {
        return None;
      }
      if members != {} {
        var id := Pick(members);
        victim := Some(id);
      }
    }
  }

  lemma SameElements(a: seq<PeerId>, b: seq<PeerId>)
    requires multiset(a) == multiset(b)
    ensures |a| == |b| && Elements(a) == Elements(b) && forall p :: p in a <==> p in b
  {
    assert |multiset(a)| == |multiset(b)|;
    forall p ensures p in a <==> p in b {
      assert p in a <==> p in multiset(a);
      assert p in b <==> p in multiset(b);
    }
  }

  lemma FirstIsLowest(sorted: seq<PeerId>, id: PeerId)
    requires Lexical.Sorted(sorted)
    ensures sorted != [] && sorted[0] == id <==> Leadership.IsLowest(id, Elements(sorted))
  {
    if id in sorted {
      forall p | p in sorted ensures Lexical.Leq(sorted[0], p) {
        Lexical.FirstIsLeast(sorted, p);
      }
      if Lexical.Leq(id, sorted[0]) {
        Lexical.LeqAntisymmetric(id, sorted[0]);
      }
    }
  }

  /** The member was last good, or first seen, in a sighting of this term that is at least the deadline
      old, and has been unhealthy in every sighting since. */
  predicate LongUnhealthy(sightings: seq<Sighting>, id: MemberId, now: int) {
    exists k :: 0 <= k < |sightings| && LastGood(sightings, id, sightings[k].now, k) &&
                now - sightings[k].now >= REMOVE_UNHEALTHY_DEADLINE
  }

  lemma {:induction false} DistinctSize(peers: seq<PeerId>)
    requires forall i, j | 0 <= i < j < |peers| :: peers[i] != peers[j]
    ensures |Elements(peers)| == |peers|
  {
    if peers != [] {
      var n := |peers| - 1;
      DistinctSize(peers[..n]);
      assert peers == peers[..n] + [peers[n]];
      assert Elements(peers) == Elements(peers[..n]) + {peers[n]};
    }
  }

  /** How one more sighting changes what is remembered of a member. */
  lemma Remembered(sightings: seq<Sighting>, before: map<MemberId, int>, s: Sighting, id: MemberId, t: int)
    requires forall i | i in before :: exists k :: LastGood(sightings, i, before[i], k)
    requires forall j, i | 0 <= j < |sightings| && i in sightings[j].members :: i in before
    requires id in before || id in s.members
    requires t == if id in before && !(id in s.members && id in s.healthy) then before[id] else s.now
    ensures exists k :: LastGood(sightings + [s], id, t, k)
  {
    var all := sightings + [s];
    if id in before && !(id in s.members && id in s.healthy) {
      var k :| LastGood(sightings, id, before[id], k);
      assert LastGood(all, id, t, k);
    } else {
      assert LastGood(all, id, t, |sightings|);
    }
  }
}
