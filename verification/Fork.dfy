/** Two chains that part at genesis, in a system of four replicas of which one is faulty; and one step of
    a run that delivers their blocks. */
module Fork {
  import opened Types
  import opened Quorum
  import opened Entity
  import opened Replica
  import opened BlockTree
  import opened Heights
  import opened World
  import opened WorldSteps
  import opened System
  import opened EveryRun
  import opened DecideRuns
  import opened Progress

  function Four(digest: Bytes -> Hash): Setup {
    Setup(ConfigMetadata(4, 1), {0, 1, 2, 3}, {3}, digest)
  }

  lemma FourIsSound(digest: Bytes -> Hash)
    ensures Sound(Four(digest)) && Honest(Four(digest)) == {0, 1, 2} && GetQuorumSize(Four(digest).metadata) == 3
  {
    assert |{0, 1, 2, 3}| == 4;
    assert {0, 1, 2, 3} - {3} == {0, 1, 2};
  }

  // ---------------------------------------------------------------------------
  // Chains

  /** How a block is justified: by genesis, or by its parent with the votes of these replicas. */
  datatype Basis = OnGenesis | OnParent(voters: set<ReplicaId>)

  /** Block i sits on block i - 1 and is justified as planned. */
  predicate PlannedAt(digest: Bytes -> Hash, chain: seq<Block>, plan: seq<Basis>, i: nat)
    requires 1 <= i < |chain| == |plan| + 1
  {
    var b, parent := chain[i], chain[i - 1].selfQc.blockHash;
    && b.parentHash == parent && b.height == i && b.selfQc.signs == map[]
    && b.selfQc.blockHash == GetBlockHash(digest, b)
    && b.justify == Some(match plan[i - 1]
                         case OnGenesis => QuorumCert(0, GenesisHash(digest), map[])
                         case OnParent(voters) => QuorumCert(0, parent, VotesOf(voters, parent)))
  }

  predicate Planned(digest: Bytes -> Hash, chain: seq<Block>, plan: seq<Basis>) {
    && |chain| == |plan| + 1 && chain[0] == Genesis(digest)
    && (forall i {:trigger PlannedAt(digest, chain, plan, i)} :: 1 <= i < |chain| ==> PlannedAt(digest, chain, plan, i))
    && Distinct(chain)
  }

  /** Two such chains with nothing but genesis in common. */
  predicate Forked(digest: Bytes -> Hash, b: seq<Block>, p: seq<Basis>, c: seq<Block>, q: seq<Basis>) {
    && Planned(digest, b, p) && Planned(digest, c, q)
    && forall i, j :: 0 <= i < |b| && 1 <= j < |c| ==> b[i].selfQc.blockHash != c[j].selfQc.blockHash
  }

  function Leaf(digest: Bytes -> Hash, parent: Block, cmd: byte, basis: Basis): Block {
    var hash := parent.selfQc.blockHash;
    var justify := match basis
      case OnGenesis => QuorumCert(0, GenesisHash(digest), map[])
      case OnParent(voters) => QuorumCert(0, hash, VotesOf(voters, hash));
    var bare := Block(hash, [cmd], 3, parent.height + 1, 0, Some(justify), QuorumCert(0, [], map[]));
    bare.(selfQc := QuorumCert(0, GetBlockHash(digest, bare), map[]))
  }

  function Chain(digest: Bytes -> Hash, cmd: byte, plan: seq<Basis>): (r: seq<Block>)
    ensures |r| == |plan| + 1
  {
    if plan == [] then [Genesis(digest)]
    else
      var below := Chain(digest, cmd, plan[..|plan| - 1]);
      below + [Leaf(digest, below[|plan| - 1], cmd, plan[|plan| - 1])]
  }

  /** A hash function without collisions. */
  function Verbatim(): Bytes -> Hash {
    x => x
  }

  /** The length of a hash tells the height, and its last byte the command. */
  predicate HashAt(chain: seq<Block>, cmd: byte, i: nat)
    requires i < |chain|
  {
    var h := chain[i].selfQc.blockHash;
    |h| == 8 + 9 * i && chain[i].height == i && (i > 0 ==> h[|h| - 1] == cmd)
  }

  lemma LeafIsPlanned(cmd: byte, plan: seq<Basis>, below: seq<Block>)
    requires plan != [] && |below| == |plan| && HashAt(below, cmd, |plan| - 1)
    ensures var chain := below + [Leaf(Verbatim(), below[|plan| - 1], cmd, plan[|plan| - 1])];
            PlannedAt(Verbatim(), chain, plan, |plan|) && HashAt(chain, cmd, |plan|)
  {
    var leaf := Leaf(Verbatim(), below[|plan| - 1], cmd, plan[|plan| - 1]);
    assert Preimage(leaf) == Preimage(leaf.(selfQc := QuorumCert(0, [], map[])));
  }

  lemma {:induction false} ChainAt(cmd: byte, plan: seq<Basis>, i: nat)
    requires i <= |plan|
    ensures var chain := Chain(Verbatim(), cmd, plan);
            && chain[0] == Genesis(Verbatim()) && HashAt(chain, cmd, i)
            && (i > 0 ==> PlannedAt(Verbatim(), chain, plan, i))
    decreases |plan|
  {
    if plan != [] {
      var shorter := plan[..|plan| - 1];
      var below := Chain(Verbatim(), cmd, shorter);
      if i == |plan| {
        ChainAt(cmd, shorter, i - 1);
        LeafIsPlanned(cmd, plan, below);
      } else {
        ChainAt(cmd, shorter, i);
        PlannedBelow(Verbatim(), below, shorter, Leaf(Verbatim(), below[|plan| - 1], cmd, plan[|plan| - 1]), plan, cmd, i);
      }
    }
  }

  lemma PlannedBelow(digest: Bytes -> Hash, below: seq<Block>, shorter: seq<Basis>, leaf: Block, plan: seq<Basis>, cmd: byte, i: nat)
    requires plan != [] && shorter == plan[..|plan| - 1] && |below| == |plan| && i < |below|
    requires HashAt(below, cmd, i) && (i > 0 ==> PlannedAt(digest, below, shorter, i))
    ensures HashAt(below + [leaf], cmd, i) && (i > 0 ==> PlannedAt(digest, below + [leaf], plan, i))
  {
  }

  lemma ChainIsPlanned(cmd: byte, plan: seq<Basis>)
    ensures Planned(Verbatim(), Chain(Verbatim(), cmd, plan), plan)
  {
    var b := Chain(Verbatim(), cmd, plan);
    ChainAt(cmd, plan, 0);
    forall i | 1 <= i < |b|
      ensures PlannedAt(Verbatim(), b, plan, i)
    {
      ChainAt(cmd, plan, i);
    }
    forall i, j | 0 <= i < j < |b|
      ensures b[i].selfQc.blockHash != b[j].selfQc.blockHash
    {
      ChainAt(cmd, plan, i);
      ChainAt(cmd, plan, j);
    }
  }

  lemma ForkExists(p: seq<Basis>, q: seq<Basis>) returns (b: seq<Block>, c: seq<Block>)
    ensures Forked(Verbatim(), b, p, c, q)
  {
    b, c := Chain(Verbatim(), 1, p), Chain(Verbatim(), 2, q);
    ChainIsPlanned(1, p);
    ChainIsPlanned(2, q);
    forall i, j | 0 <= i < |b| && 1 <= j < |c|
      ensures b[i].selfQc.blockHash != c[j].selfQc.blockHash
    {
      HashesApart(p, q, i, j);
    }
  }

  lemma HashesApart(p: seq<Basis>, q: seq<Basis>, i: nat, j: nat)
    requires i <= |p| && 1 <= j <= |q|
    ensures Chain(Verbatim(), 1, p)[i].selfQc.blockHash != Chain(Verbatim(), 2, q)[j].selfQc.blockHash
  {
    ChainAt(1, p, i);
    ChainAt(2, q, j);
  }

  predicate OnParents(plan: seq<Basis>) {
    forall i :: 0 <= i < |plan| ==> (plan[i].OnGenesis? <==> i == 0)
  }

  /** A chain whose blocks all justify their parents. */
  lemma PlannedIsLinear(u: Setup, chain: seq<Block>, plan: seq<Basis>)
    requires Planned(u.digest, chain, plan)
    requires OnParents(plan)
    ensures Linear(EnvOf(u, 0), chain)
  {
    assert Preimage(Genesis(u.digest)) == Preimage(Block([], [], 0, 0, 0, None, QuorumCert(-1, [], map[])));
    forall i | 0 <= i < |chain|
      ensures LinkedTo(EnvOf(u, 0), chain, i)
    {
      if i > 0 { assert PlannedAt(u.digest, chain, plan, i); }
    }
  }

  lemma PlannedIsEndorsed(u: Setup, chain: seq<Block>, plan: seq<Basis>, team: set<ReplicaId>)
    requires Sound(u) && Planned(u.digest, chain, plan)
    requires OnParents(plan)
    requires forall i :: 1 <= i < |plan| ==>
               plan[i].voters <= team + u.faulty <= u.replicas && |plan[i].voters| >= GetQuorumSize(u.metadata)
    ensures Endorsed(u, chain, team)
  {
    PlannedIsLinear(u, chain, plan);
    forall i | 1 <= i < |chain|
      ensures chain[i].selfQc.signs == map[] && chain[i].justify.Some?
      ensures forall r :: r in chain[i].justify.value.signs && r in Honest(u) ==> r in team && i > 1
      ensures i > 1 ==> QcVerifies(EnvOf(u, 0), chain[i].justify.value)
    {
      assert PlannedAt(u.digest, chain, plan, i);
      if i > 1 {
        VotesVerify(u, plan[i - 1].voters, chain[i].justify.value);
      }
    }
  }

  // ---------------------------------------------------------------------------
  // One delivery

  /** The honest replicas among these have signed the block. */
  predicate AllSigned(u: Setup, s: System, voters: set<ReplicaId>, h: Hash) {
    forall r :: r in voters && r in Honest(u) ==> HasSigned(WorldOf(s), r, h)
  }

  /** The next block of a chain that is in the tree up to its parent can be delivered. */
  lemma PlannedIsValid(u: Setup, s: System, chain: seq<Block>, plan: seq<Basis>, i: nat)
    requires Sound(u) && Planned(u.digest, chain, plan) && 1 <= i < |chain|
    requires Grounded(s.tree, G(u)) && OnTree(chain, i - 1, s.tree) && Certifiable(u, s, chain, plan, i - 1)
    ensures ValidBlock(u, s, chain[i])
  {
    var parent := chain[i - 1].selfQc.blockHash;
    assert PlannedAt(u.digest, chain, plan, i);
    assert parent in s.tree && s.tree[parent].height == i - 1 by {
      if i > 1 { assert PlannedAt(u.digest, chain, plan, i - 1); }
    }
    assert chain[0].selfQc.blockHash != chain[i].selfQc.blockHash;
    match plan[i - 1]
    case OnGenesis => ExtendsGenesis(s.tree, G(u), parent);
    case OnParent(voters) =>
      assert Walk(s.tree, parent, 0) == parent;
      VotesVerify(u, voters, chain[i].justify.value);
  }

  /** The state after one more delivery. */
  predicate Sent(u: Setup, rule: VoteRule, s: System, r: ReplicaId, block: Block, t: System)
    requires r in s.cores
  {
    && t.tree == s.tree[block.selfQc.blockHash := NodeOf(block)]
    && t.cores == s.cores[r := OnReceiveProposal(EnvOf(u, r), rule, s.cores[r], Proposal(0, block)).core]
    && Grows(WorldOf(s), WorldOf(t))
  }

  lemma Send(u: Setup, rule: VoteRule, run: seq<Action>, s: System, r: ReplicaId, block: Block)
      returns (longer: seq<Action>, t: System)
    requires Exec(u, rule, run) == Some(s) && r in s.cores && ValidBlock(u, s, block)
    ensures Exec(u, rule, longer) == Some(t) && Sent(u, rule, s, r, block, t)
  {
    var a := Deliver(r, Proposal(0, block));
    ExecAppend(u, rule, run, s, a);
    RunIsTidy(u, rule, run);
    StepIsTidy(u, rule, s, a);
    longer, t := run + [a], Apply(u, rule, s, a);
  }

  lemma AllSignedGrows(u: Setup, s: System, t: System, voters: set<ReplicaId>, h: Hash)
    requires AllSigned(u, s, voters, h) && Grows(WorldOf(s), WorldOf(t))
    ensures AllSigned(u, t, voters, h)
  {
    forall r | r in voters && r in Honest(u)
      ensures HasSigned(WorldOf(t), r, h)
    {
      SignedGrows(WorldOf(s), WorldOf(t), r, h);
    }
  }

  lemma OnTreeGrows(chain: seq<Block>, digest: Bytes -> Hash, plan: seq<Basis>, i: nat, t: Tree)
    requires Planned(digest, chain, plan) && 1 <= i < |chain| && OnTree(chain, i - 1, t)
    ensures OnTree(chain, i, t[chain[i].selfQc.blockHash := NodeOf(chain[i])])
  {
    OwnHash(chain, i);
  }

  lemma OnlyChainGrows(chain: seq<Block>, i: nat, t: Tree)
    requires i < |chain| && OnlyChain(chain, t)
    ensures OnlyChain(chain, t[chain[i].selfQc.blockHash := NodeOf(chain[i])])
  {
    var v := t[chain[i].selfQc.blockHash := NodeOf(chain[i])];
    forall h | h in v
      ensures OfChain(chain, h)
    {
      if h in t { assert OfChain(chain, h); }
    }
  }

  /** A tree that has only the first chain has genesis of the second and no clash with it. */
  lemma OtherTree(digest: Bytes -> Hash, b: seq<Block>, p: seq<Basis>, c: seq<Block>, q: seq<Basis>, n: nat, t: Tree)
    requires Forked(digest, b, p, c, q) && 1 <= n < |b| && OnTree(b, n, t) && OnlyChain(b, t)
    ensures OnTree(c, 0, t) && b[1].selfQc.blockHash in t && t[b[1].selfQc.blockHash] == NodeOf(b[1])
  {
    assert b[0].selfQc.blockHash in t;
    forall i | 1 <= i < |c|
      ensures c[i].selfQc.blockHash !in t
    {
      if OfChain(b, c[i].selfQc.blockHash) {
        assert false;
      }
    }
  }

  /** The certificate of the next block is a quorum of votes that were cast. */
  predicate Certifiable(u: Setup, s: System, chain: seq<Block>, plan: seq<Basis>, n: nat)
    requires n < |plan| && |chain| == |plan| + 1
  {
    plan[n].OnParent? ==>
      var voters := plan[n].voters;
      voters <= u.replicas && |voters| >= GetQuorumSize(u.metadata) && AllSigned(u, s, voters, chain[n].selfQc.blockHash)
  }

  /** The next block of a chain goes to `r`. */
  lemma SendNext(u: Setup, rule: VoteRule, chain: seq<Block>, plan: seq<Basis>, n: nat, run: seq<Action>, s: System, r: ReplicaId)
      returns (longer: seq<Action>, t: System)
    requires Sound(u) && Planned(u.digest, chain, plan) && n + 1 < |chain|
    requires Exec(u, rule, run) == Some(s) && r in s.cores && OnTree(chain, n, s.tree) && Certifiable(u, s, chain, plan, n)
    ensures Exec(u, rule, longer) == Some(t) && Sent(u, rule, s, r, chain[n + 1], t) && OnTree(chain, n + 1, t.tree)
    ensures Certifiable(u, t, chain, plan, n)
  {
    RunIsTidy(u, rule, run);
    PlannedIsValid(u, s, chain, plan, n + 1);
    longer, t := Send(u, rule, run, s, r, chain[n + 1]);
    OnTreeGrows(chain, u.digest, plan, n + 1, s.tree);
    CertifiableStays(u, s, t, chain, plan, n);
  }

  lemma CertifiableStays(u: Setup, s: System, t: System, chain: seq<Block>, plan: seq<Basis>, n: nat)
    requires n < |plan| && |chain| == |plan| + 1 && Certifiable(u, s, chain, plan, n) && Grows(WorldOf(s), WorldOf(t))
    ensures Certifiable(u, t, chain, plan, n)
  {
    if plan[n].OnParent? {
      AllSignedGrows(u, s, t, plan[n].voters, chain[n].selfQc.blockHash);
    }
  }

  lemma BallotIsSigned(s: System, r: ReplicaId, h: Hash)
    requires r in s.cores && HasBallot(s.cores[r], h)
    ensures HasSigned(WorldOf(s), r, h)
  {
    var i :| 0 <= i < |s.cores[r].signed| && s.cores[r].signed[i].hash == h;
    assert WorldOf(s).ballots[r][i].hash == h;
  }

  lemma BallotsStay(c: Core, d: Core, h: Hash)
    requires c.signed <= d.signed && HasBallot(c, h)
    ensures HasBallot(d, h)
  {
    var i :| 0 <= i < |c.signed| && c.signed[i].hash == h;
    assert d.signed[i].hash == h;
  }

  /** Two blocks of one height are on one branch only if they are one block. */
  lemma SameHeightApart(t: Tree, b: Block, c: Block)
    requires b.selfQc.blockHash in t && c.selfQc.blockHash in t && b.selfQc.blockHash != c.selfQc.blockHash
    requires t[b.selfQc.blockHash].height == t[c.selfQc.blockHash].height
    ensures !OnOneBranch(t, b, c)
  {
  }
}
