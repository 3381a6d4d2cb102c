/** Two certificates at one height, both accepted by VerifyQuorumCert and made of honest votes alone: what
    the program as written allows in every setup, because it also votes for a block that is not above
    voteHeight. */
module TwoCertificates {
  import opened Types
  import opened Entity
  import opened Replica
  import opened BlockTree
  import opened World
  import opened System
  import opened Progress
  import opened DecideRuns
  import opened Fork
  import opened DoubleVote

  function Plan(): seq<Basis> {
    [OnGenesis]
  }

  /** Two blocks of height 1. */
  predicate Rivals(u: Setup, b: seq<Block>, c: seq<Block>) {
    Sound(u) && Forked(u.digest, b, Plan(), c, Plan())
  }

  /** Has voted for the first block, and still has genesis. */
  predicate VotedFirst(b: seq<Block>, s: Core)
    requires |b| == 2
  {
    HasBallot(s, b[1].selfQc.blockHash) && s.voteHeight >= 1 && HasAll(b, 0, s)
  }

  /** Everybody has voted for the first block, and those in `done` for the second as well. */
  predicate Both(u: Setup, b: seq<Block>, c: seq<Block>, done: set<ReplicaId>, s: System)
    requires |b| == 2 && |c| == 2
  {
    && s.cores.Keys == Honest(u) && OnTree(c, if done == {} then 0 else 1, s.tree)
    && b[1].selfQc.blockHash in s.tree && s.tree[b[1].selfQc.blockHash] == NodeOf(b[1])
    && (forall r :: r in s.cores ==> VotedFirst(b, s.cores[r]))
    && (forall r :: r in done && r in s.cores ==> HasBallot(s.cores[r], c[1].selfQc.blockHash))
  }

  lemma FirstBlock(u: Setup, b: seq<Block>, c: seq<Block>) returns (run: seq<Action>, s: System)
    requires Rivals(u, b, c)
    ensures Exec(u, AsWritten, run) == Some(s) && Both(u, b, c, {}, s)
  {
    HonestAreAQuorum(u);
    PlannedIsEndorsed(u, b, Plan(), Honest(u));
    run, s := Rounds(u, AsWritten, b, Honest(u), 1);
    forall r | r in s.cores
      ensures VotedFirst(b, s.cores[r])
    {
      assert Caught(b, 1, s.cores[r]);
      assert s.cores[r].signed[0].hash == b[1].selfQc.blockHash;
    }
    OtherTree(u.digest, b, Plan(), c, Plan(), 1, s.tree);
  }

  /** The second block is signed too. */
  lemma VotesAgain(env: Env, b: seq<Block>, c: seq<Block>, s: Core)
    requires Forked(env.digest, b, Plan(), c, Plan()) && VotedFirst(b, s)
    ensures var d := OnReceiveProposal(env, AsWritten, s, Proposal(0, c[1])).core;
            VotedFirst(b, d) && HasBallot(d, c[1].selfQc.blockHash)
  {
    var s1, d := StoreBlock(s, c[1]), OnReceiveProposal(env, AsWritten, s, Proposal(0, c[1])).core;
    assert PlannedAt(env.digest, c, Plan(), 1);
    UpdateUndecided(env, s1, c[1], b[0]);
    SignsAnyway(env, s, Proposal(0, c[1]), Update(env, s1, c[1]));
    BallotsStay(s, d, b[1].selfQc.blockHash);
  }

  lemma SecondTo(u: Setup, b: seq<Block>, c: seq<Block>, done: set<ReplicaId>, run: seq<Action>, s: System, r: ReplicaId)
      returns (longer: seq<Action>, t: System)
    requires Rivals(u, b, c) && Exec(u, AsWritten, run) == Some(s) && Both(u, b, c, done, s) && r in s.cores
    ensures Exec(u, AsWritten, longer) == Some(t) && Both(u, b, c, done + {r}, t)
  {
    longer, t := SendSecond(u, c, run, s, r);
    VotesAgain(EnvOf(u, r), b, c, s.cores[r]);
    BothMoves(u, b, c, done, s, r, OnReceiveProposal(EnvOf(u, r), AsWritten, s.cores[r], Proposal(0, c[1])).core, t);
  }

  lemma SendSecond(u: Setup, c: seq<Block>, run: seq<Action>, s: System, r: ReplicaId) returns (longer: seq<Action>, t: System)
    requires Sound(u) && Planned(u.digest, c, Plan()) && Exec(u, AsWritten, run) == Some(s) && r in s.cores
    requires OnTree(c, 0, s.tree)
    ensures Exec(u, AsWritten, longer) == Some(t) && Sent(u, AsWritten, s, r, c[1], t) && OnTree(c, 1, t.tree)
  {
    longer, t := SendNext(u, AsWritten, c, Plan(), 0, run, s, r);
  }

  lemma BothMoves(u: Setup, b: seq<Block>, c: seq<Block>, done: set<ReplicaId>, s: System, r: ReplicaId, d: Core, t: System)
    requires |b| == 2 && |c| == 2 && Both(u, b, c, done, s) && r in s.cores && t.cores == s.cores[r := d]
    requires b[1].selfQc.blockHash != c[1].selfQc.blockHash
    requires t.tree == s.tree[c[1].selfQc.blockHash := NodeOf(c[1])] && OnTree(c, 1, t.tree)
    requires VotedFirst(b, d) && HasBallot(d, c[1].selfQc.blockHash)
    ensures Both(u, b, c, done + {r}, t)
  {
  }

  lemma {:induction false} SecondToAll(u: Setup, b: seq<Block>, c: seq<Block>, done: set<ReplicaId>, run: seq<Action>, s: System)
      returns (longer: seq<Action>, t: System)
    requires Rivals(u, b, c) && Exec(u, AsWritten, run) == Some(s) && Both(u, b, c, done, s) && done <= Honest(u)
    ensures Exec(u, AsWritten, longer) == Some(t) && Both(u, b, c, Honest(u), t)
    decreases Honest(u) - done
  {
    if done == Honest(u) {
      longer, t := run, s;
    } else {
      var r := NotYet(Honest(u), done);
      var longer', t' := SecondTo(u, b, c, done, run, s, r);
      FewerLeft(Honest(u), done, r);
      longer, t := SecondToAll(u, b, c, done + {r}, longer', t');
    }
  }

  /** The votes of all honest replicas for a block they all signed. */
  lemma HonestCertificate(u: Setup, s: System, h: Hash) returns (qc: QuorumCert)
    requires Sound(u) && s.cores.Keys == Honest(u) && forall r :: r in s.cores ==> HasBallot(s.cores[r], h)
    ensures qc.blockHash == h && QcVerifies(EnvOf(u, 0), qc) && Authentic(u, WorldOf(s), qc)
    ensures qc.signs.Keys == Honest(u)
  {
    qc := QuorumCert(0, h, VotesOf(Honest(u), h));
    HonestAreAQuorum(u);
    VotesVerify(u, Honest(u), qc);
    forall r | r in Honest(u)
      ensures HasSigned(WorldOf(s), r, h)
    {
      BallotIsSigned(s, r, h);
    }
  }

  /** In every setup, for any two blocks of height 1: a run of the program as written after which both have a
      certificate that verifies, each with the real votes of all honest replicas and of nobody else. */
  lemma TwoCertificatesAtOneHeight(u: Setup, b: seq<Block>, c: seq<Block>)
      returns (run: seq<Action>, s: System, p: QuorumCert, q: QuorumCert)
    requires Rivals(u, b, c)
    ensures Exec(u, AsWritten, run) == Some(s) && p.blockHash in s.tree && q.blockHash in s.tree
    ensures p.blockHash == b[1].selfQc.blockHash && q.blockHash == c[1].selfQc.blockHash && p.blockHash != q.blockHash
    ensures s.tree[p.blockHash].height == s.tree[q.blockHash].height == 1
    ensures QcVerifies(EnvOf(u, 0), p) && Authentic(u, WorldOf(s), p) && p.signs.Keys == Honest(u)
    ensures QcVerifies(EnvOf(u, 0), q) && Authentic(u, WorldOf(s), q) && q.signs.Keys == Honest(u)
  {
    HonestAreAQuorum(u);
    run, s := FirstBlock(u, b, c);
    run, s := SecondToAll(u, b, c, {}, run, s);
    p := HonestCertificate(u, s, b[1].selfQc.blockHash);
    q := HonestCertificate(u, s, c[1].selfQc.blockHash);
    assert PlannedAt(u.digest, b, Plan(), 1) && PlannedAt(u.digest, c, Plan(), 1);
    assert c[1].selfQc.blockHash in s.tree;
  }
}
