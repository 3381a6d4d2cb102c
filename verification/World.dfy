/** The facts about a run that agreement rests on: the block tree and who signed what.
    Everything here is about an arbitrary such world; System.dfy shows that the program's
    handlers only ever produce worlds that satisfy WorldInv. */
module World {
  import opened Types
  import opened Quorum
  import opened Entity
  import opened Replica
  import opened BlockTree
  import opened Heights

  /** Who takes part, who may misbehave, and the hash function. */
  datatype Setup = Setup(
    metadata: ConfigMetadata, replicas: set<ReplicaId>, faulty: set<ReplicaId>, digest: Bytes -> Hash)

  predicate Sound(u: Setup) {
    && |u.replicas| == u.metadata.n < TWO63
    && u.metadata.n >= 3 * u.metadata.f + 1
    && u.faulty <= u.replicas && |u.faulty| <= u.metadata.f
  }

  function Honest(u: Setup): set<ReplicaId> {
    u.replicas - u.faulty
  }

  function G(u: Setup): Hash {
    GenesisHash(u.digest)
  }

  function EnvOf(u: Setup, r: ReplicaId): Env {
    Env(r, u.metadata, u.replicas, u.digest)
  }

  /** All blocks of the run, and the ballots of every honest replica, oldest first. */
  datatype World = World(tree: Tree, ballots: map<ReplicaId, seq<Ballot>>)

  predicate HasSigned(w: World, r: ReplicaId, h: Hash) {
    r in w.ballots && exists i :: 0 <= i < |w.ballots[r]| && w.ballots[r][i].hash == h
  }

  /** Everybody whose signature on `h` may exist: honest signers and all faulty replicas. */
  function Backers(u: Setup, w: World, h: Hash): set<ReplicaId> {
    set r | r in u.replicas && (r in u.faulty || HasSigned(w, r, h))
  }

  predicate Certified(u: Setup, w: World, h: Hash) {
    h == G(u) || |Backers(u, w, h)| >= u.metadata.n - u.metadata.f
  }

  /** Signatures cannot be forged: a verifying signature of an honest replica was made by it. */
  predicate Authentic(u: Setup, w: World, qc: QuorumCert) {
    forall id :: id in qc.signs && id in Honest(u) && SignatureVerifies(id, qc.signs[id].signature, qc.blockHash)
      ==> HasSigned(w, id, qc.blockHash)
  }

  predicate AuthenticVote(u: Setup, w: World, v: Vote) {
    v.voter in Honest(u) && SignatureVerifies(v.voter, v.cert.signature, v.blockHash) ==>
      HasSigned(w, v.voter, v.blockHash)
  }

  /** A certificate that the program accepts really has a quorum behind it. */
  lemma VerifiedIsCertified(u: Setup, w: World, r: ReplicaId, qc: QuorumCert)
    requires Sound(u) && Authentic(u, w, qc) && QcVerifies(EnvOf(u, r), qc)
    ensures Certified(u, w, qc.blockHash)
  {
    SubsetCardinality(VerifiedSigners(EnvOf(u, r), qc), Backers(u, w, qc.blockHash));
  }

  // ---------------------------------------------------------------------------
  // The invariant

  /** A block other than genesis justifies a certified block, its parent or an ancestor of its parent. */
  predicate JustifiedAt(u: Setup, w: World, h: Hash) {
    && BuiltAt(w.tree, G(u), h)
    && w.tree[h].justify.Some? && Certified(u, w, w.tree[h].justify.value)
  }

  predicate TreeInv(u: Setup, w: World) {
    && Grounded(w.tree, G(u))
    && forall h {:trigger JustifiedAt(u, w, h)} :: h in w.tree && h != G(u) ==> JustifiedAt(u, w, h)
  }

  predicate BallotInv(u: Setup, w: World, b: Ballot) {
    b.hash in w.tree && b.hash != G(u) && SafeNode(w.tree, b.hash, b.lock) && Certified(u, w, b.lock)
  }

  /** A replica's ballots rise in height, and each was cast under a lock at least as high as
      every ballot up to it called for. */
  predicate BallotsInv(u: Setup, w: World, bs: seq<Ballot>) {
    && (forall i :: 0 <= i < |bs| ==> BallotInv(u, w, bs[i]))
    && (forall i, j :: 0 <= i < j < |bs| ==> w.tree[bs[i].hash].height < w.tree[bs[j].hash].height)
    && (forall i, j :: 0 <= i <= j < |bs| ==> LockBound(w.tree, bs[i].hash) <= w.tree[bs[j].lock].height)
  }

  /** Signed `h` while not already locked on `h` itself. */
  predicate HasFreshlySigned(w: World, r: ReplicaId, h: Hash) {
    r in w.ballots && exists i :: 0 <= i < |w.ballots[r]| && w.ballots[r][i].hash == h && w.ballots[r][i].lock != h
  }

  function FreshBackers(u: Setup, w: World, h: Hash): set<ReplicaId> {
    set r | r in u.replicas && (r in u.faulty || HasFreshlySigned(w, r, h))
  }

  predicate FreshlyCertified(u: Setup, w: World, h: Hash) {
    |FreshBackers(u, w, h)| >= u.metadata.n - u.metadata.f
  }

  predicate WorldInv(u: Setup, w: World) {
    && w.ballots.Keys == Honest(u)
    && TreeInv(u, w)
    && (forall r :: r in w.ballots ==> BallotsInv(u, w, w.ballots[r]))
    && (forall h {:trigger FreshlyCertified(u, w, h)} ::
          h in w.tree && h != G(u) && Certified(u, w, h) ==> FreshlyCertified(u, w, h))
  }

  // ---------------------------------------------------------------------------
  // Safety

  /** Two certified blocks of one height are one block. */
  lemma OneCertifiedPerHeight(u: Setup, w: World, x: Hash, y: Hash)
    requires Sound(u) && WorldInv(u, w)
    requires x in w.tree && y in w.tree && Certified(u, w, x) && Certified(u, w, y)
    requires w.tree[x].height == w.tree[y].height
    ensures x == y
  {
    assert LinkedAt(w.tree, G(u), x) && LinkedAt(w.tree, G(u), y);
    if x != G(u) && y != G(u) {
      var r := QuorumsIntersect(u.metadata, u.replicas, u.faulty, Backers(u, w, x), Backers(u, w, y));
      assert BallotsInv(u, w, w.ballots[r]);
    }
  }

  /** The three-chain that lets a replica decide: b2 is certified and sits directly on b1, which
      sits directly on b0, each justifying the one below. */
  predicate Committed(u: Setup, w: World, b2: Hash, b1: Hash, b0: Hash) {
    && b2 in w.tree && b1 in w.tree && b0 in w.tree
    && w.tree[b2].parent == b1 && w.tree[b2].justify == Some(b1)
    && w.tree[b1].parent == b0 && w.tree[b1].justify == Some(b0)
    && Certified(u, w, b2)
  }

  lemma CommittedHeights(u: Setup, w: World, b2: Hash, b1: Hash, b0: Hash)
    requires TreeInv(u, w) && Committed(u, w, b2, b1, b0)
    ensures w.tree[b1].height == w.tree[b0].height + 1 && w.tree[b2].height == w.tree[b0].height + 2
    ensures Extends(w.tree, b1, b0) && Extends(w.tree, b2, b0)
    ensures Certified(u, w, b1) && Certified(u, w, b0)
  {
    assert LinkedAt(w.tree, G(u), b2) && LinkedAt(w.tree, G(u), b1);
    assert JustifiedAt(u, w, b2) && JustifiedAt(u, w, b1);
    assert Walk(w.tree, b0, 0) == b0;
    assert Walk(w.tree, b1, 1) == b0;
    assert Walk(w.tree, b2, 2) == b0;
  }

  /** An honest replica that backs both b2 and, freshly, a higher x, cast its ballot for x under a
      certified lock other than x and no lower than b0. */
  lemma LockCarriesOver(u: Setup, w: World, b2: Hash, b1: Hash, b0: Hash, x: Hash) returns (lock: Hash)
    requires Sound(u) && WorldInv(u, w) && Committed(u, w, b2, b1, b0)
    requires x in w.tree && Certified(u, w, x) && w.tree[x].height > w.tree[b2].height
    ensures SafeNode(w.tree, x, lock) && Certified(u, w, lock) && lock != x
    ensures w.tree[lock].height >= w.tree[b0].height
  {
    assert LinkedAt(w.tree, G(u), b2) && LinkedAt(w.tree, G(u), x) && LinkedAt(w.tree, G(u), b1);
    assert FreshlyCertified(u, w, x);
    var r := QuorumsIntersect(u.metadata, u.replicas, u.faulty, Backers(u, w, b2), FreshBackers(u, w, x));
    var bs := w.ballots[r];
    assert BallotsInv(u, w, bs);
    var i :| 0 <= i < |bs| && bs[i].hash == b2;
    var j :| 0 <= j < |bs| && bs[j].hash == x && bs[j].lock != x;
    assert i < j;
    assert BallotInv(u, w, bs[j]);
    assert LockBound(w.tree, b2) == w.tree[b0].height;
    lock := bs[j].lock;
  }

  /** Once b0 is committed, every certified block at or above its height extends it. */
  lemma {:induction false} LockSafety(u: Setup, w: World, b2: Hash, b1: Hash, b0: Hash, x: Hash)
    requires Sound(u) && WorldInv(u, w) && Committed(u, w, b2, b1, b0)
    requires x in w.tree && Certified(u, w, x) && w.tree[x].height >= w.tree[b0].height
    ensures Extends(w.tree, x, b0)
    decreases w.tree[x].height - w.tree[b0].height
  {
    CommittedHeights(u, w, b2, b1, b0);
    if w.tree[x].height == w.tree[b0].height {
      OneCertifiedPerHeight(u, w, x, b0);
    } else if w.tree[x].height == w.tree[b1].height {
      OneCertifiedPerHeight(u, w, x, b1);
    } else if w.tree[x].height == w.tree[b2].height {
      OneCertifiedPerHeight(u, w, x, b2);
    } else {
      var lock := LockCarriesOver(u, w, b2, b1, b0, x);
      assert LinkedAt(w.tree, G(u), x) && LinkedAt(w.tree, G(u), b0);
      assert JustifiedAt(u, w, x);
      var j := w.tree[x].justify.value;
      ParentExtends(w.tree, G(u), x, j);
      if w.tree[j].height > w.tree[lock].height {
        LockSafety(u, w, b2, b1, b0, j);
        ExtendsTransitive(w.tree, x, j, b0);
      } else {
        assert w.tree[lock].height < w.tree[x].height;
        LockSafety(u, w, b2, b1, b0, lock);
        ExtendsTransitive(w.tree, x, lock, b0);
      }
    }
  }

  /** Any two committed blocks lie on one branch. */
  lemma CommittedComparable(u: Setup, w: World, b2: Hash, b1: Hash, b0: Hash, c2: Hash, c1: Hash, c0: Hash)
    requires Sound(u) && WorldInv(u, w) && Committed(u, w, b2, b1, b0) && Committed(u, w, c2, c1, c0)
    ensures Extends(w.tree, c0, b0) || Extends(w.tree, b0, c0)
  {
    CommittedHeights(u, w, b2, b1, b0);
    CommittedHeights(u, w, c2, c1, c0);
    if w.tree[b0].height <= w.tree[c0].height {
      LockSafety(u, w, b2, b1, b0, c0);
    } else {
      LockSafety(u, w, c2, c1, c0, b0);
    }
  }
}
