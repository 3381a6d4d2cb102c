/** common/utils/utils.go, and the counting argument that rests on it. */
module Quorum {
  import opened Types

  /** The number of signatures a quorum certificate needs. */
  function GetQuorumSize(metadata: ConfigMetadata): int {
    metadata.n - metadata.f
  }

  /** However the faulty replicas are chosen, at least `q` of all others are left. */
  ghost predicate AlwaysReached(metadata: ConfigMetadata, replicas: set<ReplicaId>, q: int) {
    forall faulty :: faulty <= replicas && |faulty| <= metadata.f ==> |replicas - faulty| >= q
  }

  /** The quorum is the greatest number that the replicas that are not faulty always reach. */
  lemma QuorumIsGreatest(metadata: ConfigMetadata, replicas: set<ReplicaId>, q: int)
    requires |replicas| == metadata.n && 0 <= metadata.f <= metadata.n
    ensures AlwaysReached(metadata, replicas, q) <==> q <= GetQuorumSize(metadata)
  {
    forall faulty | faulty <= replicas && |faulty| <= metadata.f
      ensures |replicas - faulty| >= GetQuorumSize(metadata)
    {
      Rest(replicas, faulty);
    }
    var worst := SubsetOfSize(replicas, metadata.f);
    Rest(replicas, worst);
  }

  lemma Rest<T>(all: set<T>, part: set<T>)
    requires part <= all
    ensures |all - part| == |all| - |part|
  {
    assert all == (all - part) + part;
  }

  lemma {:induction false} SubsetOfSize<T>(all: set<T>, k: nat) returns (part: set<T>)
    requires k <= |all|
    ensures part <= all && |part| == k
    decreases k
  {
    if k == 0 {
      part := {};
    } else {
      var fewer := SubsetOfSize(all, k - 1);
      Rest(all, fewer);
      var x :| x in all - fewer;
      part := fewer + {x};
    }
  }

  lemma {:induction false} SubsetCardinality<T>(a: set<T>, b: set<T>)
    requires a <= b
    ensures |a| <= |b|
  {
    if a != {} {
      var x :| x in a;
      SubsetCardinality(a - {x}, b - {x});
    }
  }

  lemma UnionCardinality<T>(a: set<T>, b: set<T>)
    ensures |a + b| + |a * b| == |a| + |b|
  {
    assert a + b == a + (b - a);
    assert b == (b - a) + (a * b);
    assert |a + b| == |a| + |b - a|;
  }

  /** Any two quorums share at least N - 2F replicas, hence an honest one when N > 3F. */
  lemma QuorumsIntersect(metadata: ConfigMetadata, replicas: set<ReplicaId>, faulty: set<ReplicaId>,
                         a: set<ReplicaId>, b: set<ReplicaId>) returns (honest: ReplicaId)
    requires |replicas| == metadata.n && metadata.n >= 3 * metadata.f + 1
    requires |faulty| <= metadata.f
    requires a <= replicas && b <= replicas
    requires |a| >= metadata.n - metadata.f && |b| >= metadata.n - metadata.f
    ensures |a * b| >= metadata.f + 1
    ensures honest in a && honest in b && honest !in faulty
  {
    UnionCardinality(a, b);
    SubsetCardinality(a + b, replicas);
    if forall r :: r in a * b ==> r in faulty {
      SubsetCardinality(a * b, faulty);
      assert false;
    }
    honest :| honest in a * b && honest !in faulty;
  }
}
