/** Runs in which a team of honest replicas receives every block of one chain, in order: all of them vote
    for every block and decide all but the last three. */
module Progress {
  import opened Types
  import opened Quorum
  import opened Entity
  import opened Replica
  import opened BlockTree
  import opened Heights
  import opened World
  import opened System
  import opened OrderlyRuns
  import opened DecideRuns

  /** The votes of `voters` for one block. */
  function VotesOf(voters: set<ReplicaId>, h: Hash): map<ReplicaId, PartCert> {
    map r | r in voters :: PartCert(r, Signature(r, h))
  }

  /** Every block justifies its parent, by a certificate that verifies and that no honest replica
      outside the team signed. */
  predicate Endorsed(u: Setup, chain: seq<Block>, team: set<ReplicaId>) {
    && Linear(EnvOf(u, 0), chain)
    && forall i :: 1 <= i < |chain| ==>
         chain[i].selfQc.signs == map[] &&
         chain[i].justify.Some? &&
         (forall r :: r in chain[i].justify.value.signs && r in Honest(u) ==> r in team && i > 1) &&
         (i > 1 ==> QcVerifies(EnvOf(u, 0), chain[i].justify.value))
  }

  function Back(n: nat, k: nat): nat {
    if n >= k then n - k else 0
  }

  /** A replica after blocks 1 to n: it has voted for each of them and its lock trails by two. */
  predicate Voted(chain: seq<Block>, n: nat, s: Core)
    requires n < |chain|
  {
    && s.voteHeight == n
    && s.lockedQC.blockHash == chain[Back(n, 2)].selfQc.blockHash
    && |s.signed| == n && forall i :: 0 <= i < n ==> s.signed[i].hash == chain[i + 1].selfQc.blockHash
  }

  predicate Caught(chain: seq<Block>, n: nat, s: Core)
    requires n < |chain|
  {
    Fed(chain, n, s) && Voted(chain, n, s)
  }

  // ---------------------------------------------------------------------------
  // One replica

  /** update with a full three-chain whose blocks are all at hand. */
  lemma UpdateThree(env: Env, s: Core, block: Block, block2: Block, block1: Block, block0: Block)
    requires JustifyBlock(s, block) == Some(block2) && JustifyBlock(s, block2) == Some(block1)
    requires JustifyBlock(s, block1) == Some(block0) && ThreeChain(block2, block1)
    requires s.lockedQC.blockHash in s.blockCache && block1.height > s.blockCache[s.lockedQC.blockHash].height
    requires s.execQC.blockHash in s.blockCache
    requires DecidedBlocks(s.blockCache, GetBlockHash(env.digest, block0), block0.height - ExecHeight(s)).1
    ensures Update(env, s, block).ok && Update(env, s, block).core.lockedQC == block2.justify.value
  {
    var s1 := UpdateHighestQC(env, s, block2, block.justify.value);
    assert s1 == s.(genericQC := s1.genericQC, events := s1.events);
  }

  /** update on the first two blocks, where the chain below is not yet three blocks long. */
  lemma UpdateEarly(env: Env, chain: seq<Block>, n: nat, s: Core)
    requires Linear(env, chain) && n <= 1 && n + 1 < |chain| && HasAll(chain, n + 1, s)
    requires s.lockedQC.blockHash == chain[0].selfQc.blockHash
    ensures Update(env, s, chain[n + 1]).ok
    ensures Update(env, s, chain[n + 1]).core.lockedQC.blockHash == chain[0].selfQc.blockHash
  {
    assert LinkedTo(env, chain, n + 1) && LinkedTo(env, chain, n);
    var s1 := UpdateHighestQC(env, s, chain[n], chain[n + 1].justify.value);
    assert s1 == s.(genericQC := s1.genericQC, events := s1.events);
  }

  lemma UpdateLate(env: Env, chain: seq<Block>, n: nat, s: Core)
    requires Linear(env, chain) && 2 <= n && n + 1 < |chain| && HasAll(chain, n + 1, s)
    requires s.execQC.blockHash == chain[Back(n, 3)].selfQc.blockHash
    requires s.lockedQC.blockHash == chain[n - 2].selfQc.blockHash
    ensures Update(env, s, chain[n + 1]).ok
    ensures Update(env, s, chain[n + 1]).core.lockedQC.blockHash == chain[n - 1].selfQc.blockHash
  {
    assert LinkedTo(env, chain, n + 1) && LinkedTo(env, chain, n) && LinkedTo(env, chain, n - 1);
    assert LinkedTo(env, chain, n - 2) && LinkedTo(env, chain, Back(n, 3));
    UpdateThree(env, s, chain[n + 1], chain[n], chain[n - 1], chain[n - 2]);
  }

  lemma UpdateNext(env: Env, chain: seq<Block>, n: nat, s: Core)
    requires Linear(env, chain) && n + 1 < |chain| && HasAll(chain, n + 1, s)
    requires s.execQC.blockHash == chain[Back(n, 3)].selfQc.blockHash
    requires s.lockedQC.blockHash == chain[Back(n, 2)].selfQc.blockHash
    ensures Update(env, s, chain[n + 1]).ok
    ensures Update(env, s, chain[n + 1]).core.lockedQC.blockHash == chain[Back(n + 1, 2)].selfQc.blockHash
  {
    if n >= 2 {
      UpdateLate(env, chain, n, s);
    } else {
      UpdateEarly(env, chain, n, s);
    }
  }

  lemma JudgeNext(env: Env, chain: seq<Block>, n: nat, s: Core)
    requires Linear(env, chain) && n + 1 < |chain| && HasAll(chain, n + 1, s) && s.voteHeight == n
    requires s.lockedQC.blockHash == chain[Back(n + 1, 2)].selfQc.blockHash
    ensures Judge(s, chain[n + 1]).Raise?
  {
    assert LinkedTo(env, chain, n + 1) && LinkedTo(env, chain, n) && LinkedTo(env, chain, Back(n + 1, 2));
    if n == 0 {
      assert ParentWalk(s.blockCache, chain[1], 1) == ParentWalk(s.blockCache, chain[0], 0);
    }
  }

  /** A caught-up replica accepts the next block and is caught up again. */
  lemma CatchUp(env: Env, rule: VoteRule, chain: seq<Block>, n: nat, s: Core, view: int)
    requires Linear(env, chain) && n + 1 < |chain| && Caught(chain, n, s)
    ensures Caught(chain, n + 1, OnReceiveProposal(env, rule, s, Proposal(view, chain[n + 1])).core)
    ensures Accepts(env, s, chain[n + 1]) && KnowsChain(StoreBlock(s, chain[n + 1]), chain[n + 1])
  {
    NextKnowsChain(env, chain, n, s);
    FeedOne(env, rule, chain, n, s, view);
    VoteNext(env, rule, chain, n, s, view);
  }

  lemma VoteNext(env: Env, rule: VoteRule, chain: seq<Block>, n: nat, s: Core, view: int)
    requires Linear(env, chain) && n + 1 < |chain| && HasAll(chain, n, s) && Voted(chain, n, s)
    requires s.execQC.blockHash == chain[Back(n, 3)].selfQc.blockHash
    ensures Voted(chain, n + 1, OnReceiveProposal(env, rule, s, Proposal(view, chain[n + 1])).core)
    ensures Accepts(env, s, chain[n + 1])
  {
    var s1, prop := StoreBlock(s, chain[n + 1]), Proposal(view, chain[n + 1]);
    HasAllNext(chain, n, s);
    UpdateNext(env, chain, n, s1);
    var c := Update(env, s1, chain[n + 1]).core;
    JudgeNext(env, chain, n, c);
    NotYetSigned(chain, n, s);
    ReceiveRaises(env, rule, s, prop, c);
    assert LinkedTo(env, chain, n + 1);
    VotedNext(chain, n, s, OnReceiveProposal(env, rule, s, prop).core, c.lockedQC.blockHash);
  }

  lemma VotedNext(chain: seq<Block>, n: nat, s: Core, d: Core, lock: Hash)
    requires n + 1 < |chain| && Voted(chain, n, s) && d.voteHeight == n + 1
    requires d.lockedQC.blockHash == chain[Back(n + 1, 2)].selfQc.blockHash
    requires d.signed == s.signed + [Ballot(chain[n + 1].selfQc.blockHash, lock)]
    ensures Voted(chain, n + 1, d)
  {
  }

  lemma NotYetSigned(chain: seq<Block>, n: nat, s: Core)
    requires Distinct(chain) && n + 1 < |chain| && Voted(chain, n, s)
    ensures !HasBallot(s, chain[n + 1].selfQc.blockHash)
  {
    OwnHash(chain, n + 1);
  }

  lemma ReceiveRaises(env: Env, rule: VoteRule, s: Core, prop: Proposal, c: Core)
    requires Update(env, StoreBlock(s, prop.block), prop.block) == Outcome(c, true) && Judge(c, prop.block).Raise?
    ensures Accepts(env, s, prop.block)
    ensures var d := OnReceiveProposal(env, rule, s, prop).core;
            && d.voteHeight == prop.block.height && d.lockedQC == c.lockedQC
            && HasBallot(d, prop.block.selfQc.blockHash)
            && (!HasBallot(s, prop.block.selfQc.blockHash) ==>
                  d.signed == s.signed + [Ballot(prop.block.selfQc.blockHash, c.lockedQC.blockHash)])
  {
  }

  lemma NextKnowsChain(env: Env, chain: seq<Block>, n: nat, c: Core)
    requires Linear(env, chain) && n + 1 < |chain| && HasAll(chain, n, c)
    ensures KnowsChain(StoreBlock(c, chain[n + 1]), chain[n + 1])
  {
    assert LinkedTo(env, chain, n + 1) && LinkedTo(env, chain, n);
    if n >= 1 { assert chain[n - 1].selfQc.blockHash in c.blockCache; }
  }

  // ---------------------------------------------------------------------------
  // The whole system

  /** Block n is being delivered: the team members in `done` have it, the others have the one before, and
      nobody else has got anything. */
  predicate Round(u: Setup, chain: seq<Block>, team: set<ReplicaId>, n: nat, done: set<ReplicaId>, s: System)
    requires 1 <= n < |chain|
  {
    && s.cores.Keys == Honest(u)
    && OnlyChain(chain, s.tree) && OnTree(chain, if done == {} then n - 1 else n, s.tree)
    && (forall r :: r in s.cores ==>
          if r !in team then s.cores[r] == Initial(EnvOf(u, r))
          else Caught(chain, if r in done then n else n - 1, s.cores[r]))
  }

  predicate OfChain(chain: seq<Block>, h: Hash) {
    exists i :: 0 <= i < |chain| && h == chain[i].selfQc.blockHash
  }

  predicate OnlyChain(chain: seq<Block>, t: Tree) {
    forall h {:trigger OfChain(chain, h)} :: h in t ==> OfChain(chain, h)
  }

  /** Blocks 0 to n are in the tree, and no block of the chain clashes with it. */
  predicate OnTree(chain: seq<Block>, n: nat, t: Tree)
    requires n < |chain|
  {
    && (forall i :: 0 <= i <= n ==> chain[i].selfQc.blockHash in t)
    && (forall i :: 0 <= i < |chain| && chain[i].selfQc.blockHash in t ==> t[chain[i].selfQc.blockHash] == NodeOf(chain[i]))
  }

  lemma HonestAreAQuorum(u: Setup)
    requires Sound(u)
    ensures |Honest(u)| >= GetQuorumSize(u.metadata) > 0
    ensures |u.faulty| == u.metadata.f ==> |Honest(u)| == GetQuorumSize(u.metadata)
  {
    assert Honest(u) + u.faulty == u.replicas && Honest(u) * u.faulty == {};
  }

  /** A quorum of real votes makes a certificate that verifies. */
  lemma VotesVerify(u: Setup, voters: set<ReplicaId>, qc: QuorumCert)
    requires Sound(u) && voters <= u.replicas && |voters| >= u.metadata.n - u.metadata.f
    requires qc.signs == VotesOf(voters, qc.blockHash)
    ensures QcVerifies(EnvOf(u, 0), qc)
  {
    assert qc.signs.Keys == voters;
    assert VerifiedSigners(EnvOf(u, 0), qc) == voters;
  }

  /** The certificate of block n carries votes that were really cast. */
  lemma JustifyIsAuthentic(u: Setup, chain: seq<Block>, team: set<ReplicaId>, n: nat, done: set<ReplicaId>, s: System)
    requires Endorsed(u, chain, team) && 1 <= n < |chain| && Round(u, chain, team, n, done, s)
    ensures Authentic(u, WorldOf(s), chain[n].justify.value)
  {
    var qc := chain[n].justify.value;
    assert LinkedTo(EnvOf(u, 0), chain, n);
    forall r | r in qc.signs && r in Honest(u)
      ensures HasSigned(WorldOf(s), r, qc.blockHash)
    {
      assert Caught(chain, if r in done then n else n - 1, s.cores[r]);
      assert WorldOf(s).ballots[r][n - 2].hash == qc.blockHash;
    }
  }

  lemma NextFits(u: Setup, chain: seq<Block>, n: nat, t: Tree)
    requires Linear(EnvOf(u, 0), chain) && 1 <= n < |chain| && OnTree(chain, n - 1, t)
    ensures chain[n].selfQc.blockHash == GetBlockHash(u.digest, chain[n])
    ensures FitsAt(t, G(u), chain[n].selfQc.blockHash, NodeOf(chain[n]))
  {
    assert LinkedTo(EnvOf(u, 0), chain, n) && LinkedTo(EnvOf(u, 0), chain, n - 1);
    assert chain[n - 1].selfQc.blockHash in t;
    assert chain[0].selfQc.blockHash != chain[n].selfQc.blockHash;
  }

  lemma NextIsValid(u: Setup, chain: seq<Block>, team: set<ReplicaId>, n: nat, done: set<ReplicaId>, s: System)
    requires Endorsed(u, chain, team) && 1 <= n < |chain| && Round(u, chain, team, n, done, s)
    ensures ValidBlock(u, s, chain[n])
  {
    NextFits(u, chain, n, s.tree);
    JustifyIsAuthentic(u, chain, team, n, done, s);
    assert LinkedTo(EnvOf(u, 0), chain, n);
    assert chain[n].selfQc.signs == map[];
  }

  lemma LinearForAll(u: Setup, chain: seq<Block>, r: ReplicaId)
    requires Linear(EnvOf(u, 0), chain)
    ensures Linear(EnvOf(u, r), chain)
  {
    forall i | 0 <= i < |chain|
      ensures LinkedTo(EnvOf(u, r), chain, i)
    {
      assert LinkedTo(EnvOf(u, 0), chain, i);
    }
  }

  /** One more team member receives block n. */
  lemma DeliverNext(u: Setup, rule: VoteRule, chain: seq<Block>, team: set<ReplicaId>, n: nat, done: set<ReplicaId>,
                    run: seq<Action>, s: System, r: ReplicaId)
      returns (longer: seq<Action>, t: System)
    requires Endorsed(u, chain, team) && 1 <= n < |chain| && Round(u, chain, team, n, done, s)
    requires Exec(u, rule, run) == Some(s) && Orderly(u, rule, run) && team <= Honest(u) && r in team - done
    ensures Exec(u, rule, longer) == Some(t) && Orderly(u, rule, longer) && Round(u, chain, team, n, done + {r}, t)
  {
    var a := Deliver(r, Proposal(0, chain[n]));
    LinearForAll(u, chain, r);
    NextIsValid(u, chain, team, n, done, s);
    CatchUp(EnvOf(u, r), rule, chain, n - 1, s.cores[r], 0);
    DeliverInOrder(u, rule, run, s, r, a.prop);
    var c := OnReceiveProposal(EnvOf(u, r), rule, s.cores[r], a.prop).core;
    longer, t := run + [a], System(s.tree[chain[n].selfQc.blockHash := NodeOf(chain[n])], s.cores[r := c]);
    RoundMoves(u, chain, team, n, done, s, r, t, c);
  }

  lemma RoundMoves(u: Setup, chain: seq<Block>, team: set<ReplicaId>, n: nat, done: set<ReplicaId>,
                   s: System, r: ReplicaId, t: System, c: Core)
    requires Endorsed(u, chain, team) && 1 <= n < |chain| && Round(u, chain, team, n, done, s) && r in s.cores && r in team
    requires t == System(s.tree[chain[n].selfQc.blockHash := NodeOf(chain[n])], s.cores[r := c]) && Caught(chain, n, c)
    ensures Round(u, chain, team, n, done + {r}, t)
  {
    TreeMoves(u, chain, n, s.tree);
  }

  lemma TreeMoves(u: Setup, chain: seq<Block>, n: nat, t: Tree)
    requires Linear(EnvOf(u, 0), chain) && 1 <= n < |chain| && OnTree(chain, n - 1, t) && OnlyChain(chain, t)
    ensures var v := t[chain[n].selfQc.blockHash := NodeOf(chain[n])]; OnTree(chain, n, v) && OnlyChain(chain, v)
  {
    var v := t[chain[n].selfQc.blockHash := NodeOf(chain[n])];
    OwnHash(chain, n);
    forall h | h in v
      ensures OfChain(chain, h)
    {
    }
  }

  lemma NotYet<T>(all: set<T>, done: set<T>) returns (x: T)
    requires done <= all && done != all
    ensures x in all && x !in done
  {
    x :| x in all && x !in done;
  }

  lemma FewerLeft<T>(all: set<T>, done: set<T>, x: T)
    requires x in all && x !in done
    ensures all - (done + {x}) < all - done
  {
    assert x in all - done && x !in all - (done + {x});
  }

  /** The whole team receives block n. */
  lemma {:induction false} DeliverToAll(u: Setup, rule: VoteRule, chain: seq<Block>, team: set<ReplicaId>, n: nat,
                                        done: set<ReplicaId>, run: seq<Action>, s: System)
      returns (longer: seq<Action>, t: System)
    requires Endorsed(u, chain, team) && 1 <= n < |chain| && Round(u, chain, team, n, done, s)
    requires Exec(u, rule, run) == Some(s) && Orderly(u, rule, run) && done <= team <= Honest(u)
    ensures Exec(u, rule, longer) == Some(t) && Orderly(u, rule, longer) && Round(u, chain, team, n, team, t)
    decreases team - done
  {
    if done == team {
      longer, t := run, s;
    } else {
      var r := NotYet(team, done);
      var longer', t' := DeliverNext(u, rule, chain, team, n, done, run, s, r);
      FewerLeft(team, done, r);
      longer, t := DeliverToAll(u, rule, chain, team, n, done + {r}, longer', t');
    }
  }

  lemma FirstRound(u: Setup, rule: VoteRule, chain: seq<Block>, team: set<ReplicaId>) returns (run: seq<Action>, s: System)
    requires Endorsed(u, chain, team) && 1 < |chain|
    ensures Exec(u, rule, run) == Some(s) && Orderly(u, rule, run) && Round(u, chain, team, 1, {}, s)
  {
    run, s := [], Init(u);
    assert LinkedTo(EnvOf(u, 0), chain, 0);
    OwnHash(chain, 0);
    forall r | r in Honest(u)
      ensures Caught(chain, 0, Initial(EnvOf(u, r)))
    {
    }
  }

  lemma NextRound(u: Setup, chain: seq<Block>, team: set<ReplicaId>, n: nat, s: System)
    requires team != {} && 2 <= n < |chain| && Round(u, chain, team, n - 1, team, s)
    ensures Round(u, chain, team, n, {}, s)
  {
  }

  lemma {:induction false} Rounds(u: Setup, rule: VoteRule, chain: seq<Block>, team: set<ReplicaId>, n: nat)
      returns (run: seq<Action>, s: System)
    requires Endorsed(u, chain, team) && {} != team <= Honest(u) && 1 <= n < |chain|
    ensures Exec(u, rule, run) == Some(s) && Orderly(u, rule, run) && Round(u, chain, team, n, team, s)
    decreases n, 1
  {
    var before, t := RoundStarts(u, rule, chain, team, n);
    run, s := DeliverToAll(u, rule, chain, team, n, {}, before, t);
  }

  lemma {:induction false} RoundStarts(u: Setup, rule: VoteRule, chain: seq<Block>, team: set<ReplicaId>, n: nat)
      returns (run: seq<Action>, s: System)
    requires Endorsed(u, chain, team) && {} != team <= Honest(u) && 1 <= n < |chain|
    ensures Exec(u, rule, run) == Some(s) && Orderly(u, rule, run) && Round(u, chain, team, n, {}, s)
    decreases n, 0
  {
    if n == 1 {
      run, s := FirstRound(u, rule, chain, team);
    } else {
      run, s := Rounds(u, rule, chain, team, n - 1);
      NextRound(u, chain, team, n, s);
    }
  }

  /** Whatever a team of honest replicas endorses block by block gets decided by all of them alike: for every
      such chain there is an orderly run after which each of them has voted for all of it and has decided the
      blocks of heights 1 to n - 3, in that order. */
  lemma TeamDecides(u: Setup, rule: VoteRule, chain: seq<Block>, team: set<ReplicaId>, n: nat)
      returns (run: seq<Action>, s: System)
    requires Endorsed(u, chain, team) && {} != team <= Honest(u) && 3 <= n < |chain|
    ensures Exec(u, rule, run) == Some(s) && Orderly(u, rule, run) && s.cores.Keys == Honest(u)
    ensures forall r :: r in team ==> Decided(s.cores[r].events) == chain[1..n - 2]
    ensures forall r, i :: r in team && 1 <= i <= n ==> HasSigned(WorldOf(s), r, chain[i].selfQc.blockHash)
  {
    run, s := Rounds(u, rule, chain, team, n);
    forall r, i | r in team && 1 <= i <= n
      ensures HasSigned(WorldOf(s), r, chain[i].selfQc.blockHash)
    {
      assert Caught(chain, n, s.cores[r]);
      assert WorldOf(s).ballots[r][i - 1].hash == chain[i].selfQc.blockHash;
    }
  }
}
