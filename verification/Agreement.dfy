/** What every orderly run guarantees. */
module Agreement {
  import opened Types
  import opened Entity
  import opened Replica
  import opened BlockTree
  import opened World
  import opened ReplicaInv
  import opened System
  import opened EveryRun
  import opened OrderlyRuns

  lemma DecidedIsDecidable(u: Setup, s: System, r: ReplicaId, b: Block)
    requires SystemInv(u, s) && Decides(s, r, b)
    ensures Decidable(u, WorldOf(s), b)
  {
    assert CoreInv(u, WorldOf(s), s.cores[r]);
    var i :| 0 <= i < |s.cores[r].events| && s.cores[r].events[i] == DecideEvent(b);
  }

  lemma DecidedBlocksComparable(u: Setup, s: System, r: ReplicaId, q: ReplicaId, b: Block, c: Block)
    requires Sound(u) && SystemInv(u, s) && Decides(s, r, b) && Decides(s, q, c)
    ensures OnOneBranch(s.tree, b, c)
  {
    var w, d, e := WorldOf(s), b.selfQc.blockHash, c.selfQc.blockHash;
    DecidedIsDecidable(u, s, r, b);
    DecidedIsDecidable(u, s, q, c);
    var b2, b1, b0 :| Decision(u, w, b2, b1, b0, d);
    var c2, c1, c0 :| Decision(u, w, c2, c1, c0, e);
    CommittedComparable(u, w, b2, b1, b0, c2, c1, c0);
    OneBranch(u, w, b0, c0, d, e);
  }

  lemma OneBranch(u: Setup, w: World, b0: Hash, c0: Hash, d: Hash, e: Hash)
    requires TreeInv(u, w) && Extends(w.tree, b0, d) && Extends(w.tree, c0, e)
    requires Extends(w.tree, b0, c0) || Extends(w.tree, c0, b0)
    ensures Extends(w.tree, d, e) || Extends(w.tree, e, d)
  {
    var top := if Extends(w.tree, b0, c0) then b0 else c0;
    if top == b0 { ExtendsTransitive(w.tree, b0, c0, e); } else { ExtendsTransitive(w.tree, c0, b0, d); }
    if w.tree[d].height <= w.tree[e].height {
      AncestorsComparable(w.tree, G(u), top, d, e);
    } else {
      AncestorsComparable(w.tree, G(u), top, e, d);
    }
  }

  /** Agreement: in every orderly run, under either vote rule, whatever an honest replica has decided at one moment and whatever an
      honest replica has decided at another lie on one branch of the block tree. */
  lemma AgreementTheorem(
      u: Setup, rule: VoteRule, run: seq<Action>, i: nat, j: nat, r: ReplicaId, q: ReplicaId, b: Block, c: Block)
    requires Sound(u) && Exec(u, rule, run).Some? && Orderly(u, rule, run) && i <= |run| && j <= |run|
    requires Exec(u, rule, run[..i]).Some? && Decides(Exec(u, rule, run[..i]).value, r, b)
    requires Exec(u, rule, run[..j]).Some? && Decides(Exec(u, rule, run[..j]).value, q, c)
    ensures OnOneBranch(Exec(u, rule, run).value.tree, b, c)
    ensures Decides(Exec(u, rule, run).value, r, b) && Decides(Exec(u, rule, run).value, q, c)
  {
    var s := Exec(u, rule, run).value;
    RunInv(u, rule, run);
    RunIsMonotone(u, rule, run, i);
    RunIsMonotone(u, rule, run, j);
    DecisionStays(Exec(u, rule, run[..i]).value, s, r, b);
    DecisionStays(Exec(u, rule, run[..j]).value, s, q, c);
    DecidedBlocksComparable(u, s, r, q, b, c);
  }

  lemma DecisionStays(s: System, t: System, r: ReplicaId, b: Block)
    requires Later(s, t) && Decides(s, r, b)
    ensures Decides(t, r, b)
  {
    var i :| 0 <= i < |s.cores[r].events| && s.cores[r].events[i] == DecideEvent(b);
    assert t.cores[r].events[i] == s.cores[r].events[i];
  }

  /** One block per height, one command per height: what any two honest replicas hand to the application
      at one height is the same block and, unless the hash function collides on the two, the same commands. */
  lemma SameHeightSameCommands(
      u: Setup, rule: VoteRule, run: seq<Action>, i: nat, j: nat, r: ReplicaId, q: ReplicaId, b: Block, c: Block)
    requires Sound(u) && Exec(u, rule, run).Some? && Orderly(u, rule, run) && i <= |run| && j <= |run|
    requires Exec(u, rule, run[..i]).Some? && Decides(Exec(u, rule, run[..i]).value, r, b)
    requires Exec(u, rule, run[..j]).Some? && Decides(Exec(u, rule, run[..j]).value, q, c)
    requires b.height == c.height
    requires Ordinary(b) && Ordinary(c) && (GetBlockHash(u.digest, b) == GetBlockHash(u.digest, c) ==> Preimage(b) == Preimage(c))
    ensures b.selfQc.blockHash == c.selfQc.blockHash && b.parentHash == c.parentHash && b.cmds == c.cmds
  {
    AgreementTheorem(u, rule, run, i, j, r, q, b, c);
    RunInv(u, rule, run);
    SameHeightOnBranch(u, Exec(u, rule, run).value, r, q, b, c);
  }

  lemma SameHeightOnBranch(u: Setup, s: System, r: ReplicaId, q: ReplicaId, b: Block, c: Block)
    requires SystemInv(u, s) && Decides(s, r, b) && Decides(s, q, c) && OnOneBranch(s.tree, b, c) && b.height == c.height
    requires Ordinary(b) && Ordinary(c) && (GetBlockHash(u.digest, b) == GetBlockHash(u.digest, c) ==> Preimage(b) == Preimage(c))
    ensures b.selfQc.blockHash == c.selfQc.blockHash && b.parentHash == c.parentHash && b.cmds == c.cmds
  {
    DecidedIsDecidable(u, s, r, b);
    DecidedIsDecidable(u, s, q, c);
    assert Walk(s.tree, b.selfQc.blockHash, 0) == b.selfQc.blockHash;
    assert Walk(s.tree, c.selfQc.blockHash, 0) == c.selfQc.blockHash;
    PreimageDeterminesContent(b, c);
  }

  /** Two certificates that the program accepts, for blocks of one height, are for one block. */
  lemma OneCertificatePerHeight(u: Setup, rule: VoteRule, run: seq<Action>, p: QuorumCert, q: QuorumCert, r: ReplicaId)
    requires Sound(u) && Exec(u, rule, run).Some? && Orderly(u, rule, run)
    requires var s := Exec(u, rule, run).value;
             && p.blockHash in s.tree && q.blockHash in s.tree
             && s.tree[p.blockHash].height == s.tree[q.blockHash].height
             && Authentic(u, WorldOf(s), p) && Authentic(u, WorldOf(s), q)
    requires QcVerifies(EnvOf(u, r), p) && QcVerifies(EnvOf(u, r), q)
    ensures p.blockHash == q.blockHash
  {
    var w := WorldOf(Exec(u, rule, run).value);
    RunInv(u, rule, run);
    VerifiedIsCertified(u, w, r, p);
    VerifiedIsCertified(u, w, r, q);
    OneCertifiedPerHeight(u, w, p.blockHash, q.blockHash);
  }

  /** Once b, b', b'' sit directly on one another, each justifying the one below, and b'' has an
      accepted certificate, every block with an accepted certificate at or above b extends b. */
  lemma LockSafetyInRuns(
      u: Setup, rule: VoteRule, run: seq<Action>, b2: Hash, b1: Hash, b0: Hash, p: QuorumCert, q: QuorumCert, r: ReplicaId)
    requires Sound(u) && Exec(u, rule, run).Some? && Orderly(u, rule, run)
    requires var s := Exec(u, rule, run).value;
             && b2 in s.tree && b1 in s.tree && b0 in s.tree
             && s.tree[b2] == Node(b1, s.tree[b2].height, Some(b1))
             && s.tree[b1] == Node(b0, s.tree[b1].height, Some(b0))
             && p.blockHash == b2 && QcVerifies(EnvOf(u, r), p) && Authentic(u, WorldOf(s), p)
             && q.blockHash in s.tree && QcVerifies(EnvOf(u, r), q) && Authentic(u, WorldOf(s), q)
             && s.tree[q.blockHash].height >= s.tree[b0].height
    ensures Extends(Exec(u, rule, run).value.tree, q.blockHash, b0)
  {
    var w := WorldOf(Exec(u, rule, run).value);
    RunInv(u, rule, run);
    VerifiedIsCertified(u, w, r, p);
    VerifiedIsCertified(u, w, r, q);
    LockSafety(u, w, b2, b1, b0, q.blockHash);
  }
}
