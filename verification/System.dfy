/** N replicas exchanging messages over a network that may lose, delay, repeat and reorder them,
    with up to F replicas sending anything they can sign. A run is a sequence of handler calls on
    honest replicas, and of blocks coming into being at faulty ones. */
module System {
  import opened Types
  import opened Entity
  import opened Replica
  import opened BlockTree
  import opened Heights
  import opened World

  datatype System = System(tree: Tree, cores: map<ReplicaId, Core>)

  /** A faulty replica makes a block that need not arrive anywhere; or a handler call on honest replica `r`:
      the pacemaker proposes on the highest certificate, a proposal arrives, a vote arrives, or a new-view
      message brings a certificate. */
  datatype Action =
    | Appear(block: Block)
    | Propose(r: ReplicaId, curView: int, cmds: Bytes, timestamp: int)
    | Deliver(r: ReplicaId, prop: Proposal)
    | CastVote(r: ReplicaId, vote: Vote)
    | ReceiveQC(r: ReplicaId, qc: QuorumCert)

  function WorldOf(s: System): World {
    World(s.tree, map r | r in s.cores :: s.cores[r].signed)
  }

  function Init(u: Setup): System {
    System(map[G(u) := NodeOf(Genesis(u.digest))], map r | r in Honest(u) :: Initial(EnvOf(u, r)))
  }

  /** Whoever acts is one of the honest replicas. */
  predicate Acts(s: System, a: Action) {
    a.Appear? || a.r in s.cores
  }

  function LeafOf(u: Setup, s: System, a: Action): Option<Block>
    requires a.Propose? && a.r in s.cores
  {
    var c := s.cores[a.r];
    NewLeaf(EnvOf(u, a.r), c, a.curView, c.genericQC.blockHash, a.cmds, a.timestamp)
  }

  /** No other block of the run has this hash: neither a collision nor a second justify. */
  predicate Fits(s: System, b: Block) {
    b.selfQc.blockHash in s.tree ==> s.tree[b.selfQc.blockHash] == NodeOf(b)
  }

  /** What OnPropose builds and OnReceiveProposal takes for granted about a block; and signatures of honest
      replicas in it are real. */
  predicate ValidBlock(u: Setup, s: System, b: Block) {
    && b.selfQc.blockHash == GetBlockHash(u.digest, b)
    && FitsAt(s.tree, G(u), b.selfQc.blockHash, NodeOf(b))
    && (b.justify.value.blockHash == G(u) || QcVerifies(EnvOf(u, 0), b.justify.value))
    && Authentic(u, WorldOf(s), b.justify.value) && Authentic(u, WorldOf(s), b.selfQc)
  }

  /** The messages that can arrive. */
  predicate Enabled(u: Setup, s: System, a: Action) {
    && Acts(s, a)
    && match a
       case Appear(block) => ValidBlock(u, s, block)
       case Propose(_, _, _, _) => LeafOf(u, s, a).Some? ==> Fits(s, LeafOf(u, s, a).value)
       case Deliver(_, prop) => ValidBlock(u, s, prop.block)
       case CastVote(_, vote) => AuthenticVote(u, WorldOf(s), vote)
       case ReceiveQC(r, qc) => Authentic(u, WorldOf(s), qc) && qc.blockHash in s.cores[r].blockCache
  }

  /** The handler's effect on the replica that runs it. */
  function Handle(u: Setup, rule: VoteRule, s: System, a: Action): Core
    requires !a.Appear? && a.r in s.cores
  {
    var env, c := EnvOf(u, a.r), s.cores[a.r];
    match a
    case Propose(_, curView, cmds, timestamp) => OnPropose(env, c, curView, c.genericQC.blockHash, cmds, timestamp).core
    case Deliver(_, prop) => OnReceiveProposal(env, rule, c, prop).core
    case CastVote(_, vote) => OnProposalVote(env, c, vote).core
    case ReceiveQC(_, qc) =>
      if qc.blockHash in c.blockCache then UpdateHighestQC(env, c, c.blockCache[qc.blockHash], qc) else c
  }

  /** The block an action brings into the world, if any. */
  function Born(u: Setup, s: System, a: Action): Option<Block>
    requires Acts(s, a)
  {
    match a
    case Appear(block) => Some(block)
    case Propose(_, _, _, _) => LeafOf(u, s, a)
    case Deliver(_, prop) => Some(prop.block)
    case CastVote(_, _) => None
    case ReceiveQC(_, _) => None
  }

  function Grown(u: Setup, s: System, a: Action): Tree
    requires Acts(s, a)
  {
    var b := Born(u, s, a);
    if b.Some? then s.tree[b.value.selfQc.blockHash := NodeOf(b.value)] else s.tree
  }

  function Apply(u: Setup, rule: VoteRule, s: System, a: Action): System
    requires Acts(s, a)
  {
    System(Grown(u, s, a), if a.Appear? then s.cores else s.cores[a.r := Handle(u, rule, s, a)])
  }

  /** The state after the calls in `run`, if each was possible when it was made. */
  function Exec(u: Setup, rule: VoteRule, run: seq<Action>): Option<System> {
    if run == [] then Some(Init(u))
    else match Exec(u, rule, run[..|run| - 1])
      case None => None
      case Some(s) =>
        var a := run[|run| - 1];
        if Enabled(u, s, a) then Some(Apply(u, rule, s, a)) else None
  }

  lemma ExecAppend(u: Setup, rule: VoteRule, run: seq<Action>, s: System, a: Action)
    requires Exec(u, rule, run) == Some(s) && Enabled(u, s, a)
    ensures Exec(u, rule, run + [a]) == Some(Apply(u, rule, s, a))
  {
    assert (run + [a])[..|run + [a]| - 1] == run;
  }

  predicate Decides(s: System, r: ReplicaId, b: Block) {
    r in s.cores && DecideEvent(b) in s.cores[r].events
  }

  /** The two blocks lie on one branch of the tree. */
  predicate OnOneBranch(t: Tree, b: Block, c: Block) {
    Extends(t, b.selfQc.blockHash, c.selfQc.blockHash) || Extends(t, c.selfQc.blockHash, b.selfQc.blockHash)
  }
}
