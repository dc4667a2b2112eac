/** Quorum arithmetic: `QuorumInfo::new`, and the counting facts about a committee with a
    bounded number of faulty members on which every protocol threshold rests. */
module Quorums {

  type NodeId = nat

  datatype Option<+T> = None | Some(value: T)

  datatype QuorumInfo = QuorumInfo(f: nat, quorumSize: nat, members: seq<NodeId>) {
    predicate IsMember(id: NodeId) {
      id in members
    }
  }

  /** The checked constructor; `None` stands for its failing assertion. */
  function NewQuorumInfo(n: nat, f: nat, members: seq<NodeId>): (r: Option<QuorumInfo>)
    ensures r.Some? <==> n >= 3 * f + 1
    ensures r.Some? ==> r.value.f == f && r.value.quorumSize + f == n && r.value.members == members
    ensures r.Some? ==> 2 * f < r.value.quorumSize && f < r.value.quorumSize - f
    ensures r.Some? ==> forall id :: r.value.IsMember(id) <==> id in members
  {
    if n > 0 && f <= (n - 1) / 3 then Some(QuorumInfo(f, n - f, members)) else None
  }

  /** A committee: the quorum information every correct member holds, and the members that
      are faulty (at most `f` of them). */
  datatype Committee = Committee(info: QuorumInfo, faulty: set<NodeId>) {

    ghost function Members(): set<NodeId> {
      set id | id in info.members
    }

    ghost function Correct(): set<NodeId> {
      Members() - faulty
    }

    ghost function N(): nat {
      |Members()|
    }

    /** The members are distinct and the quorum information passed the constructor's check. */
    ghost predicate Valid() {
      && NewQuorumInfo(N(), info.f, info.members) == Some(info)
      && |info.members| == N()
      && faulty <= Members()
      && |faulty| <= info.f
    }

    /** Any two sets of more than 2f members share a correct one. The intended size n = 3f + 1
        guarantees it, and is the largest size that does when f members are faulty. */
    ghost predicate Intersecting() {
      Valid() && N() + |faulty| <= 4 * info.f + 1
    }
  }

  lemma SubsetSize<T>(a: set<T>, b: set<T>)
    requires a <= b
    ensures |a| <= |b|
  {
    assert b == a + (b - a);
  }

  lemma DisjointSize<T>(a: set<T>, b: set<T>, whole: set<T>)
    requires a !! b && a + b <= whole
    ensures |a| + |b| <= |whole|
  {
    SubsetSize(a + b, whole);
  }

  lemma {:induction false} Subset<T>(whole: set<T>, k: nat) returns (part: set<T>)
    requires k <= |whole|
    ensures part <= whole && |part| == k
  {
    if k == 0 {
      part := {};
    } else {
      var x :| x in whole;
      part := Subset(whole - {x}, k - 1);
      part := part + {x};
    }
  }

  /** More than `f` members include a correct one. */
  lemma CorrectWitness(c: Committee, q: set<NodeId>) returns (id: NodeId)
    requires c.Valid() && q <= c.Members() && |q| > c.info.f
    ensures id in q && id in c.Correct()
  {
    if q <= c.faulty {
      SubsetSize(q, c.faulty);
      assert false;
    }
    id :| id in q && id !in c.faulty;
  }

  /** Two sets too large to share only faulty members share a correct one. */
  lemma CorrectOverlap(c: Committee, a: set<NodeId>, b: set<NodeId>) returns (id: NodeId)
    requires a <= c.Members() && b <= c.Members() && |a| + |b| > c.N() + |c.faulty|
    ensures id in a && id in b && id in c.Correct()
  {
    SubsetSize(a + b, c.Members());
    if a * b <= c.faulty {
      SubsetSize(a * b, c.faulty);
      assert false;
    }
    id :| id in a * b && id !in c.faulty;
  }

  lemma IntendedSize(c: Committee)
    requires c.Valid()
    ensures c.N() == 3 * c.info.f + 1 ==> c.Intersecting()
    ensures |c.faulty| == c.info.f && c.Intersecting() ==> c.N() == 3 * c.info.f + 1
  {
  }

  /** Two sets of more than 2f members of an intersecting committee share a correct member. */
  lemma QuorumOverlap(c: Committee, a: set<NodeId>, b: set<NodeId>) returns (id: NodeId)
    requires c.Intersecting() && a <= c.Members() && b <= c.Members()
    requires |a| > 2 * c.info.f && |b| > 2 * c.info.f
    ensures id in a && id in b && id in c.Correct()
  {
    id := CorrectOverlap(c, a, b);
  }

  /** The correct members alone exceed 2f. */
  lemma CorrectMajority(c: Committee)
    requires c.Valid()
    ensures |c.Correct()| >= c.info.quorumSize > 2 * c.info.f
  {
    assert c.Members() == c.Correct() + c.faulty;
  }
}
