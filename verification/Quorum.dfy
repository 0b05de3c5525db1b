/** Options, as the rest of the project uses them. */
module Options {
  datatype Option<+T> = None | Some(value: T)
}

/** Sets and maps are visited in no particular order. */
module Sets {
  method Pick<T(==)>(s: set<T>) returns (x: T)
    requires s != {}
    ensures x in s
  {
    x :| x in s;
  }

  lemma Any<T>(s: set<T>) returns (x: T)
    requires s != {}
    ensures x in s
  {
    x :| x in s;
  }

  function Elements<T>(s: seq<T>): set<T> {
    set x | x in s
  }
}

/** Quorum arithmetic of the controller, and the counting facts built on it. */
module Quorum {

  /** The number of members that make a quorum of a cluster of size n. */
  function QuorumSize(n: nat): nat {
    n / 2 + 1
  }

  lemma SubsetSize<T>(a: set<T>, b: set<T>)
    requires a <= b
    ensures |a| <= |b|
    ensures |a| == |b| ==> a == b
  {
    assert b == a + (b - a);
  }

  /** Two sets of q elements each, out of fewer than 2q elements, share one. */
  lemma Overlap<T>(all: set<T>, a: set<T>, b: set<T>, q: nat)
    requires a <= all && b <= all
    requires |a| >= q && |b| >= q && |all| < 2 * q
    ensures a * b != {}
  {
    if a * b == {} {
      assert |a + b| == |a| + |b|;
      SubsetSize(a + b, all);
    }
  }

  /** A larger cluster needs no smaller quorum. */
  lemma QuorumMonotone(m: nat, n: nat)
    requires m <= n
    ensures QuorumSize(m) <= QuorumSize(n)
  {
  }

  /** The admission test of a new cluster: enough peers for a quorum of the desired size, and
      either enough for the desired size itself or as many as give the same quorum size. */
  predicate EnoughPeers(peers: nat, desired: nat) {
    && peers >= QuorumSize(desired)
    && (peers >= desired || QuorumSize(peers) == QuorumSize(desired))
  }

  /** How many peers the proposal takes: it stops at the desired size. */
  function ProposalSize(peers: nat, desired: nat): nat {
    if desired == 0 || peers < desired then peers else desired
  }

  /** An admitted proposal always has the quorum of the full cluster and misses at most one
      member, and only when the desired size is odd; so the "need dummy peers" stop of the source
      cannot be reached. */
  lemma ProposalKeepsQuorum(peers: nat, desired: nat)
    requires desired >= 1 && EnoughPeers(peers, desired)
    ensures var p := ProposalSize(peers, desired);
            && QuorumSize(p) == QuorumSize(desired)
            && p >= QuorumSize(desired)
            && (p == desired || (p == desired - 1 && desired % 2 == 1))
  {
    if peers < desired {
      assert peers / 2 == desired / 2;
      assert desired < 2 * (desired / 2) + 2 && peers >= 2 * (peers / 2);
    }
  }

  /** Up to a desired size of three, and not beyond, a quorum of peers always suffices to create a cluster. */
  lemma SmallSizes(desired: nat)
    requires desired >= 1
    ensures desired <= 3 <==> forall peers: nat | peers >= QuorumSize(desired) :: EnoughPeers(peers, desired)
  {
    if desired > 3 {
      assert !EnoughPeers(QuorumSize(desired), desired);
    } else {
      forall peers: nat | peers >= QuorumSize(desired) ensures EnoughPeers(peers, desired) {
        SmallNeverShort(peers, desired);
      }
    }
  }

  lemma SmallNeverShort(peers: nat, desired: nat)
    requires 1 <= desired <= 3 && peers >= QuorumSize(desired)
    ensures EnoughPeers(peers, desired)
  {
  }
}
