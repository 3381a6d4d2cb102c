/** One round of the replicas with their pacemakers: the leader in turn proposes a block, all others vote, and the
    next leader that is up counts the votes and takes over. */
module Rotation {
  import opened Types
  import opened Quorum
  import opened Entity
  import opened Replica
  import opened BlockTree
  import opened Heights
  import opened World
  import opened System
  import opened EveryRun
  import opened OrderlyRuns
  import opened DecideRuns
  import opened Progress
  import opened ClosedLoop
  import opened LoopRuns
  import opened PacedRuns
  import opened PacedMoves
  import opened HotStuffBase
  import opened VoteRoute
  import Pacemaker
  import PM = PacemakerRuns
  import TallyRuns

  /** The leader of view `v` is up. */
  predicate Up(u: Setup, v: int)
    requires u.metadata.n > 0
  {
    v % u.metadata.n in Honest(u)
  }

  /** Of two leaders that follow each other one is up. */
  predicate OneIsUp(u: Setup, v: int)
    requires u.metadata.n > 0
  {
    Up(u, v) || Up(u, v + 1)
  }

  /** All take turns, and no two that follow each other are down. */
  ghost predicate Spread(u: Setup) {
    && Sound(u) && u.metadata.n >= 2 && (forall r :: r in u.replicas <==> 0 <= r < u.metadata.n)
    && (forall v :: OneIsUp(u, v))
  }

  lemma SpreadIsSeated(u: Setup)
    requires Spread(u)
    ensures AllSeated(u) && Honest(u) <= u.replicas && GetQuorumSize(u.metadata) >= 2
    ensures u.faulty != {} ==> u.metadata.n >= 4
  {
    if u.faulty != {} {
      SubsetCardinality({}, u.faulty);
    }
  }

  /** The view in which the i-th block is proposed, from 0 on: the next one whose leader is up. */
  function ViewOf(u: Setup, i: nat): (v: nat)
    requires u.metadata.n > 0
    ensures v >= i
  {
    if i == 0 then if Up(u, 0) then 0 else 1
    else
      var before := ViewOf(u, i - 1);
      if Up(u, before + 1) then before + 1 else before + 2
  }

  /** Its leader, who also counts the votes for the block before. */
  function SeatOf(u: Setup, i: nat): ReplicaId
    requires u.metadata.n > 0
  {
    ViewOf(u, i) % u.metadata.n
  }

  lemma ViewIsUp(u: Setup, i: nat)
    requires Spread(u)
    ensures Up(u, ViewOf(u, i)) && SeatOf(u, i) in Honest(u) && 0 <= SeatOf(u, i) < u.metadata.n
  {
    if i == 0 {
      assert OneIsUp(u, 0);
    } else {
      var v := ViewOf(u, i - 1);
      assert OneIsUp(u, v + 1);
    }
  }

  // ---------------------------------------------------------------------------
  // One chain, many tallies

  /** The votes for block i are counted by SeatOf(u, i). So replica r has the chain as announced, but the blocks
      whose votes it counted with their certificates. */
  function Mine(u: Setup, chain: seq<Block>, full: seq<Block>, r: ReplicaId): seq<Block>
    requires u.metadata.n > 0 && |full| == |chain|
  {
    seq(|chain|, i requires 0 <= i < |chain| => if SeatOf(u, i) == r then full[i] else chain[i])
  }

  lemma MineIsSame(u: Setup, chain: seq<Block>, full: seq<Block>, r: ReplicaId)
    requires u.metadata.n > 0 && SameBlocks(chain, full)
    ensures SameBlocks(chain, Mine(u, chain, full, r))
  {
  }

  lemma MineGrows(u: Setup, chain: seq<Block>, full: seq<Block>, r: ReplicaId, b: Block, c: Block)
    requires u.metadata.n > 0 && |full| == |chain|
    ensures Mine(u, chain + [b], full + [c], r) == Mine(u, chain, full, r) + [if SeatOf(u, |chain|) == r then c else b]
  {
  }

  lemma LinearSame(env: Env, chain: seq<Block>, mine: seq<Block>)
    requires Linear(env, chain) && SameBlocks(chain, mine) && mine[0] == chain[0]
    ensures Linear(env, mine)
  {
    forall i | 0 <= i < |mine|
      ensures LinkedTo(env, mine, i)
    {
      assert LinkedTo(env, chain, i) && Preimage(mine[i]) == Preimage(chain[i]);
      assert mine[i] == chain[i].(selfQc := mine[i].selfQc);
      if i > 0 { assert mine[i - 1].selfQc.blockHash == chain[i - 1].selfQc.blockHash; }
    }
    forall i, j | 0 <= i < j < |mine|
      ensures ApartAt(mine, i, j)
    {
      assert ApartAt(chain, i, j);
    }
  }

  lemma MineIsLinear(u: Setup, chain: seq<Block>, full: seq<Block>, r: ReplicaId)
    requires u.metadata.n > 0 && Linear(EnvOf(u, 0), chain) && SameBlocks(chain, full) && full[0] == chain[0]
    ensures Linear(EnvOf(u, r), Mine(u, chain, full, r))
  {
    MineIsSame(u, chain, full, r);
    LinearSame(EnvOf(u, 0), chain, Mine(u, chain, full, r));
    LinearForAll(u, Mine(u, chain, full, r), r);
  }

  /** The same with the next block on top. */
  lemma LeafIsLinear(u: Setup, chain: seq<Block>, full: seq<Block>, r: ReplicaId, b: Block, c: Block)
    requires u.metadata.n > 0 && chain != [] && Linear(EnvOf(u, 0), chain + [b]) && SameBlocks(chain, full)
    requires full[0] == chain[0] && c == b.(selfQc := c.selfQc) && c.selfQc.blockHash == b.selfQc.blockHash
    ensures Linear(EnvOf(u, 0), Mine(u, chain, full, r) + [c])
    ensures Linear(EnvOf(u, r), Mine(u, chain, full, r) + [c])
  {
    var mine := Mine(u, chain, full, r);
    MineIsSame(u, chain, full, r);
    BlocksStaySame(chain, mine, b, c);
    LinearSame(EnvOf(u, 0), chain + [b], mine + [c]);
    LinearForAll(u, mine + [c], r);
  }

  // ---------------------------------------------------------------------------
  // The replicas between two blocks

  /** The highest certificate is for a stored block no higher than `k`. */
  predicate HighUpTo(c: Core, k: int) {
    c.genericQC.blockHash in c.blockCache && c.blockCache[c.genericQC.blockHash].height <= k
  }

  predicate Waits(u: Setup, chain: seq<Block>, full: seq<Block>, r: ReplicaId, pm: Pacemaker.PM)
    requires u.metadata.n > 0 && |full| == |chain| > 0
  {
    && Caught(Mine(u, chain, full, r), |chain| - 1, pm.core) && pm.core.voteSet == map[]
    && HighUpTo(pm.core, |chain| - 1) && pm.curView <= ViewOf(u, |chain| - 1)
    && (r != SeatOf(u, |chain| - 1) ==> pm.queue == [])
  }

  /** No block hash is empty, since handleVote drops votes for an empty hash. */
  predicate NoEmptyHash(digest: Bytes -> Hash, cmds: seq<Bytes>) {
    forall i :: 1 <= i <= |cmds| ==> LedgerHash(digest, cmds, i) != []
  }

  /** What all know about the chain. */
  ghost predicate Grounds(u: Setup, cmds: seq<Bytes>, chain: seq<Block>, full: seq<Block>) {
    && Spread(u) && NoRepeat(u.digest, cmds) && NoEmptyHash(u.digest, cmds) && chain != [] && SameBlocks(chain, full)
    && full[0] == chain[0]
    && Linear(EnvOf(u, 0), chain) && Carries(u.digest, cmds, chain)
    && (|chain| == 1 || QcVerifies(EnvOf(u, 0), full[|chain| - 1].selfQc))
  }

  predicate TreeIs(chain: seq<Block>, t: Tree)
    requires chain != []
  {
    OnTree(chain, |chain| - 1, t) && OnlyChain(chain, t)
  }

  ghost predicate Wait(u: Setup, chain: seq<Block>, full: seq<Block>, p: Paced)
    requires u.metadata.n > 0 && |full| == |chain| > 0
  {
    forall r {:trigger Waits(u, chain, full, r, p.pms[r])} :: r in p.pms ==> Waits(u, chain, full, r, p.pms[r])
  }

  /** All are done with the chain, and the next leader has certified its last block and has a command. */
  ghost predicate Ready(u: Setup, cmds: seq<Bytes>, chain: seq<Block>, full: seq<Block>, p: Paced)
    requires Grounds(u, cmds, chain, full)
  {
    var k := |chain| - 1;
    && p.pms.Keys == Honest(u) && SeatOf(u, k) in p.pms && TreeIs(chain, p.tree)
    && Wait(u, chain, full, p) && Turn(cmds, full[k].selfQc, k, ViewOf(u, k), p.pms[SeatOf(u, k)])
  }

  /** It is this replica's turn. */
  predicate Turn(cmds: seq<Bytes>, qc: QuorumCert, k: nat, view: int, pm: Pacemaker.PM) {
    && pm.curView == view && pm.core.genericQC == qc
    && pm.queue == if k < |cmds| then [cmds[k]] else []
  }

  // ---------------------------------------------------------------------------
  // The replicas while a block is on its way

  function Leader(u: Setup, chain: seq<Block>): ReplicaId
    requires u.metadata.n > 0 && chain != []
  {
    SeatOf(u, |chain| - 1)
  }

  function Counter(u: Setup, chain: seq<Block>): ReplicaId
    requires u.metadata.n > 0
  {
    SeatOf(u, |chain|)
  }

  /** The view in which the leader proposes... */
  function View(u: Setup, chain: seq<Block>): int
    requires u.metadata.n > 0 && chain != []
  {
    ViewOf(u, |chain| - 1)
  }

  /** ...and the view that its proposal and the votes for it carry: a next leader that is down is skipped. */
  function SentIn(u: Setup, chain: seq<Block>): int
    requires u.metadata.n > 0
  {
    ViewOf(u, |chain|) - 1
  }

  lemma TurnsDiffer(u: Setup, chain: seq<Block>)
    requires Spread(u) && chain != []
    ensures Leader(u, chain) in Honest(u) && Counter(u, chain) in Honest(u) && Leader(u, chain) != Counter(u, chain)
    ensures Pacemaker.GetCurLeader(u.metadata.n, View(u, chain)) == Leader(u, chain)
    ensures Pacemaker.GetLeader(u.metadata.n, SentIn(u, chain)) == Counter(u, chain) && Up(u, SentIn(u, chain) + 1)
    ensures SentIn(u, chain) == if Up(u, View(u, chain) + 1) then View(u, chain) else View(u, chain) + 1
  {
    var v := View(u, chain);
    ViewIsUp(u, |chain| - 1);
    ViewIsUp(u, |chain|);
    NextSeat(v, u.metadata.n);
    if !Up(u, v + 1) {
      SomeoneIsDown(u, v + 1);
      SecondSeat(v, u.metadata.n);
    }
  }

  lemma SomeoneIsDown(u: Setup, v: nat)
    requires Spread(u) && !Up(u, v)
    ensures u.metadata.n >= 4
  {
    assert v % u.metadata.n in u.faulty;
    SpreadIsSeated(u);
  }

  lemma SecondSeat(k: nat, n: int)
    requires n >= 4
    ensures k % n != (k + 2) % n
  {
    var q, r := k / n, k % n;
    if r + 2 < n {
      DivUnique(k + 2, n, q, r + 2);
    } else {
      assert k + 2 == n * (q + 1) + (r + 2 - n) by {
        assert n * (q + 1) == n * q + n;
      }
      DivUnique(k + 2, n, q + 1, r + 2 - n);
    }
  }

  lemma NextSeat(k: nat, n: int)
    requires n >= 2
    ensures k % n != (k + 1) % n
  {
    if (k + 1) % n != 0 {
      Pacemaker.ModPredecessor(k + 1, n);
    } else if k % n == 0 {
      DivUnique(k + 1, n, k / n, 1);
    }
  }

  /** The vote of `r` for the leaf. */
  function VoteOf(u: Setup, chain: seq<Block>, leaf: Block, r: ReplicaId): Vote
    requires u.metadata.n > 0
  {
    VoteProposal(EnvOf(u, r), SentIn(u, chain), leaf.selfQc.blockHash)
  }

  function Offer(u: Setup, chain: seq<Block>, leaf: Block): Block
    requires u.metadata.n > 0 && chain != []
  {
    WithVotes(leaf, {Leader(u, chain)})
  }

  /** A replica that has the leaf as it was announced. */
  predicate HasLeaf(u: Setup, chain: seq<Block>, full: seq<Block>, leaf: Block, r: ReplicaId, c: Core)
    requires u.metadata.n > 0 && |full| == |chain| > 0
  {
    Caught(Mine(u, chain, full, r) + [Offer(u, chain, leaf)], |chain|, c) && HighBelow(c, leaf)
  }

  predicate SeatAt(u: Setup, chain: seq<Block>, full: seq<Block>, leaf: Block, done: set<ReplicaId>, voters: set<ReplicaId>,
                   r: ReplicaId, pm: Pacemaker.PM)
    requires u.metadata.n > 0 && |full| == |chain| > 0
  {
    var k := |chain| - 1;
    && pm.core.voteSet == map[] && pm.queue == [] && pm.curView <= SentIn(u, chain)
    && if r == Leader(u, chain) then
         HasLeaf(u, chain, full, leaf, r, pm.core) &&
         Pacemaker.ProposalToAll(SentIn(u, chain), Offer(u, chain, leaf)) in pm.sent
       else if r !in done then
         && Caught(Mine(u, chain, full, r), k, pm.core) && HighUpTo(pm.core, k)
         && leaf.selfQc.blockHash !in pm.core.blockCache
       else if r == Counter(u, chain) then
         pm.curView == SentIn(u, chain) && Collects(EnvOf(u, r), Mine(u, chain, full, r), leaf, voters, pm.core)
       else
         && HasLeaf(u, chain, full, leaf, r, pm.core)
         && Pacemaker.VoteTo(Counter(u, chain), VoteOf(u, chain, leaf, r)) in pm.sent
  }

  /** What all know about the leaf. */
  ghost predicate Leafed(u: Setup, cmds: seq<Bytes>, chain: seq<Block>, full: seq<Block>, leaf: Block) {
    && Grounds(u, cmds, chain, full) && |chain| <= |cmds|
    && Linear(EnvOf(u, 0), chain + [Offer(u, chain, leaf)]) && Carries(u.digest, cmds, chain + [Offer(u, chain, leaf)])
    && leaf.justify == Some(full[|chain| - 1].selfQc) && leaf.selfQc.viewNumber == View(u, chain)
    && leaf.selfQc.signs == map[]
  }

  /** Only those who have the leaf have voted, and the counter counts from its own vote on. */
  predicate Tallied(u: Setup, chain: seq<Block>, done: set<ReplicaId>, voters: set<ReplicaId>)
    requires u.metadata.n > 0 && chain != []
  {
    && done <= Honest(u) - {Leader(u, chain)} && Leader(u, chain) in voters && voters <= done + {Leader(u, chain)}
    && (if Counter(u, chain) in done then Counter(u, chain) in voters else voters == {Leader(u, chain)})
  }

  /** The replicas in `done` have the leaf and have voted; the votes of `voters` are counted. */
  ghost predicate Passing(u: Setup, cmds: seq<Bytes>, chain: seq<Block>, full: seq<Block>, leaf: Block,
                          done: set<ReplicaId>, voters: set<ReplicaId>, p: Paced)
    requires Leafed(u, cmds, chain, full, leaf)
  {
    && p.pms.Keys == Honest(u) && TreeIs(chain + [Offer(u, chain, leaf)], p.tree)
    && Tallied(u, chain, done, voters)
    && (forall r {:trigger SeatAt(u, chain, full, leaf, done, voters, r, p.pms[r])} :: r in p.pms ==>
          SeatAt(u, chain, full, leaf, done, voters, r, p.pms[r]))
  }

  // ---------------------------------------------------------------------------
  // The leader proposes

  lemma LeaderLeads(u: Setup, cmds: seq<Bytes>, chain: seq<Block>, full: seq<Block>, p: Paced)
    requires Grounds(u, cmds, chain, full) && Ready(u, cmds, chain, full, p)
    ensures Leader(u, chain) in p.pms
    ensures var mine := Mine(u, chain, full, Leader(u, chain));
            && Leads(mine, p.pms[Leader(u, chain)].core) && Linear(EnvOf(u, Leader(u, chain)), mine)
            && mine[|chain| - 1] == full[|chain| - 1]
            && mine[|chain| - 1].selfQc.blockHash == chain[|chain| - 1].selfQc.blockHash
  {
    var l := Leader(u, chain);
    TurnsDiffer(u, chain);
    assert Waits(u, chain, full, l, p.pms[l]);
    MineIsLinear(u, chain, full, l);
    MineIsSame(u, chain, full, l);
  }

  function Opening(u: Setup, cmds: seq<Bytes>, chain: seq<Block>): Action
    requires u.metadata.n > 0 && 0 < |chain| <= |cmds|
  {
    Propose(Leader(u, chain), View(u, chain), cmds[|chain| - 1], 0)
  }

  /** What OnPropose builds, and that it fits. */
  lemma LeafFound(u: Setup, cmds: seq<Bytes>, chain: seq<Block>, full: seq<Block>, p: Paced) returns (leaf: Block)
    requires Grounds(u, cmds, chain, full) && Ready(u, cmds, chain, full, p) && |chain| <= |cmds|
    ensures Leader(u, chain) in p.pms && LeafOf(u, CoresOf(p), Opening(u, cmds, chain)) == Some(leaf)
    ensures Leafed(u, cmds, chain, full, leaf) && Fits(CoresOf(p), leaf) && leaf.height == |chain|
    ensures leaf.selfQc.blockHash !in p.tree
    ensures TreeIs(chain + [Offer(u, chain, leaf)], p.tree[leaf.selfQc.blockHash := NodeOf(leaf)])
  {
    var l, k := Leader(u, chain), |chain| - 1;
    var mine := Mine(u, chain, full, l);
    LeaderLeads(u, cmds, chain, full, p);
    LeafIsBuilt(EnvOf(u, l), mine, p.pms[l].core, View(u, chain), cmds[k], 0);
    leaf := LeafOf(u, CoresOf(p), Opening(u, cmds, chain)).value;
    LeafStands(u, cmds, chain, full, p, leaf);
  }

  lemma LeafStands(u: Setup, cmds: seq<Bytes>, chain: seq<Block>, full: seq<Block>, p: Paced, leaf: Block)
    requires Grounds(u, cmds, chain, full) && TreeIs(chain, p.tree) && |chain| <= |cmds|
    requires leaf.selfQc.signs == map[] && leaf.height == |chain| && leaf.cmds == cmds[|chain| - 1]
    requires leaf.parentHash == chain[|chain| - 1].selfQc.blockHash && leaf.justify == Some(full[|chain| - 1].selfQc)
    requires GetBlockHash(u.digest, leaf) == leaf.selfQc.blockHash && leaf.selfQc.viewNumber == View(u, chain)
    ensures Leafed(u, cmds, chain, full, leaf) && Fits(CoresOf(p), leaf) && leaf.selfQc.blockHash !in p.tree
    ensures TreeIs(chain + [Offer(u, chain, leaf)], p.tree[leaf.selfQc.blockHash := NodeOf(leaf)])
  {
    var offer := Offer(u, chain, leaf);
    assert Preimage(offer) == Preimage(leaf);
    assert full[|chain| - 1].selfQc.blockHash == chain[|chain| - 1].selfQc.blockHash;
    LedgerGrows(u.digest, cmds, chain, offer);
    LeafContinues(EnvOf(u, 0), chain, offer);
    TreeHasLeaf(chain, offer, p.tree);
  }

  /** The leader's core after its proposal. */
  lemma LeafIsOpened(u: Setup, cmds: seq<Bytes>, chain: seq<Block>, full: seq<Block>, leaf: Block, l: ReplicaId, c: Core)
    requires Leafed(u, cmds, chain, full, leaf) && leaf.height == |chain| && l == Leader(u, chain)
    requires Leads(Mine(u, chain, full, l), c) && c.genericQC == full[|chain| - 1].selfQc
    ensures KnowsChain(StoreBlock(c, leaf), leaf)
    ensures Opened(EnvOf(u, l), Mine(u, chain, full, l), c, View(u, chain), leaf,
                   ProposeLeaf(EnvOf(u, l), c, View(u, chain), leaf).core)
  {
    SpreadIsSeated(u);
    TurnsDiffer(u, chain);
    LeafIsLinear(u, chain, full, l, Offer(u, chain, leaf), leaf);
    LeaderProposes(u, l, Mine(u, chain, full, l), c, View(u, chain), leaf);
  }

  lemma LeaderHasLeaf(u: Setup, cmds: seq<Bytes>, chain: seq<Block>, full: seq<Block>, p: Paced, leaf: Block, c: Core)
    requires Leafed(u, cmds, chain, full, leaf) && Ready(u, cmds, chain, full, p) && leaf.height == |chain|
    requires Leader(u, chain) in p.pms && c == p.pms[Leader(u, chain)].core
    ensures KnowsChain(StoreBlock(c, leaf), leaf)
    ensures var d := ProposeLeaf(EnvOf(u, Leader(u, chain)), c, View(u, chain), leaf).core;
            && HasLeaf(u, chain, full, leaf, Leader(u, chain), d) && d.voteSet == map[]
            && ProposeEvent(Proposal(View(u, chain), Offer(u, chain, leaf))) in d.events
  {
    LeaderLeads(u, cmds, chain, full, p);
    LeafIsOpened(u, cmds, chain, full, leaf, Leader(u, chain), c);
    assert |{Leader(u, chain)}| == 1;
  }

  lemma BeatProposes(u: Setup, cmds: seq<Bytes>, chain: seq<Block>, leaf: Block, pm: Pacemaker.PM, s: System)
    requires Spread(u) && 0 < |chain| <= |cmds| && pm.queue == [cmds[|chain| - 1]] && pm.curView == View(u, chain)
    requires Leader(u, chain) in s.cores && s.cores[Leader(u, chain)] == pm.core
    requires LeafOf(u, s, Opening(u, cmds, chain)) == Some(leaf)
    ensures var env, l := EnvOf(u, Leader(u, chain)), Leader(u, chain);
            && Pacemaker.Seated(env) && Calls(env, pm, PM.BeatEv(0)) == [Opening(u, cmds, chain)]
            && PM.Handle(env, pm, PM.BeatEv(0)) ==
               pm.(queue := [], core := ProposeLeaf(env, pm.core, View(u, chain), leaf).core)
  {
    TurnsDiffer(u, chain);
    assert pm.queue[1..] == [];
    ProposesLeaf(EnvOf(u, Leader(u, chain)), pm.core, View(u, chain), cmds[|chain| - 1], leaf);
  }

  lemma ProposesLeaf(env: Env, c: Core, view: int, cmds: Bytes, leaf: Block)
    requires NewLeaf(env, c, view, c.genericQC.blockHash, cmds, 0) == Some(leaf)
    ensures OnPropose(env, c, view, c.genericQC.blockHash, cmds, 0) == ProposeLeaf(env, c, view, leaf)
  {
  }

  lemma OfferIsSent(u: Setup, chain: seq<Block>, leaf: Block, pm: Pacemaker.PM)
    requires Spread(u) && chain != [] && pm.curView == View(u, chain)
    ensures var env, e := EnvOf(u, Leader(u, chain)), PM.ProposeEv(View(u, chain), Offer(u, chain, leaf), NextUp(u));
            && Pacemaker.Seated(env) && Calls(env, pm, e) == []
            && PM.Handle(env, pm, e) ==
               pm.(curView := SentIn(u, chain),
                   sent := pm.sent + [Pacemaker.ProposalToAll(SentIn(u, chain), Offer(u, chain, leaf))])
  {
    TurnsDiffer(u, chain);
  }

  /** After OnBeat. */
  function Beaten(u: Setup, chain: seq<Block>, leaf: Block, p: Paced, pm: Pacemaker.PM): Paced
    requires u.metadata.n > 0 && chain != []
  {
    Paced(p.tree[leaf.selfQc.blockHash := NodeOf(leaf)],
          p.pms[Leader(u, chain) :=
                  pm.(queue := [], core := ProposeLeaf(EnvOf(u, Leader(u, chain)), pm.core, View(u, chain), leaf).core)])
  }

  predicate OfferIsOut(u: Setup, chain: seq<Block>, leaf: Block, p: Paced)
    requires u.metadata.n > 0 && chain != []
  {
    && p.pms.Keys == Honest(u) && Leader(u, chain) in p.pms && p.pms[Leader(u, chain)].curView == View(u, chain)
    && ProposeEvent(Proposal(View(u, chain), Offer(u, chain, leaf))) in p.pms[Leader(u, chain)].core.events
  }

  lemma Beats(u: Setup, rule: VoteRule, cmds: seq<Bytes>, chain: seq<Block>, full: seq<Block>,
              moves: seq<Move>, p: Paced, run: seq<Action>, leaf: Block, pm: Pacemaker.PM)
      returns (longer: seq<Move>, q: Paced)
    requires Leafed(u, cmds, chain, full, leaf) && Ready(u, cmds, chain, full, p) && leaf.height == |chain|
    requires Leader(u, chain) in p.pms && pm == p.pms[Leader(u, chain)] && BeatDue(moves, Leader(u, chain), pm)
    requires LeafOf(u, CoresOf(p), Opening(u, cmds, chain)) == Some(leaf) && Fits(CoresOf(p), leaf)
    requires Playing(u, rule, moves, p, run)
    ensures Playing(u, rule, longer, q, run + [Opening(u, cmds, chain)])
    ensures q == Beaten(u, chain, leaf, p, pm) && OfferIsOut(u, chain, leaf, q)
  {
    var l, a, s := Leader(u, chain), Opening(u, cmds, chain), CoresOf(p);
    LeaderHasLeaf(u, cmds, chain, full, p, leaf, pm.core);
    ProposeInOrder(u, rule, run, s, a, leaf);
    BeatProposes(u, cmds, chain, leaf, pm, s);
    CallMove(u, rule, moves, p, run, l, PM.BeatEv(0), a);
    longer, q := moves + [Drive(l, PM.BeatEv(0))],
                 Paced(Grown(u, s, a), p.pms[l := PM.Handle(EnvOf(u, l), pm, PM.BeatEv(0))]);
  }

  /** After OnProposeEvent. */
  function OutSent(u: Setup, chain: seq<Block>, leaf: Block, p: Paced): Paced
    requires u.metadata.n > 0 && chain != [] && Leader(u, chain) in p.pms
  {
    var pm := p.pms[Leader(u, chain)];
    Paced(p.tree, p.pms[Leader(u, chain) :=
                          pm.(curView := SentIn(u, chain),
                              sent := pm.sent + [Pacemaker.ProposalToAll(SentIn(u, chain), Offer(u, chain, leaf))])])
  }

  lemma Sends(u: Setup, rule: VoteRule, chain: seq<Block>, leaf: Block, moves: seq<Move>, p: Paced, run: seq<Action>)
      returns (longer: seq<Move>)
    requires Spread(u) && chain != [] && Playing(u, rule, moves, p, run) && OfferIsOut(u, chain, leaf, p)
    ensures Playing(u, rule, longer, OutSent(u, chain, leaf, p), run)
  {
    var l, e := Leader(u, chain), PM.ProposeEv(View(u, chain), Offer(u, chain, leaf), NextUp(u));
    OfferIsSent(u, chain, leaf, p.pms[l]);
    QuietMove(u, rule, moves, p, run, l, e);
    longer := moves + [Drive(l, e)];
  }

  lemma OpenedIsPassing(u: Setup, cmds: seq<Bytes>, chain: seq<Block>, full: seq<Block>, leaf: Block, p: Paced, q: Paced)
    requires Leafed(u, cmds, chain, full, leaf) && Ready(u, cmds, chain, full, p) && leaf.height == |chain|
    requires Leader(u, chain) in p.pms
    requires q == OutSent(u, chain, leaf, Beaten(u, chain, leaf, p, p.pms[Leader(u, chain)]))
    requires TreeIs(chain + [Offer(u, chain, leaf)], q.tree)
    requires forall r :: r in p.pms ==> leaf.selfQc.blockHash !in p.pms[r].core.blockCache
    ensures Passing(u, cmds, chain, full, leaf, {}, {Leader(u, chain)}, q)
  {
    var l := Leader(u, chain);
    TurnsDiffer(u, chain);
    forall r | r in q.pms
      ensures SeatAt(u, chain, full, leaf, {}, {l}, r, q.pms[r])
    {
      assert Waits(u, chain, full, r, p.pms[r]);
      if r == l { LeaderHasLeaf(u, cmds, chain, full, p, leaf, p.pms[l].core); }
    }
  }

  /** A block that is not in the tree is in no store. */
  lemma StoredNowhere(u: Setup, rule: VoteRule, run: seq<Action>, s: System, h: Hash)
    requires Exec(u, rule, run) == Some(s) && h !in s.tree
    ensures forall r :: r in s.cores ==> h !in s.cores[r].blockCache
  {
    RunIsTidy(u, rule, run);
    forall r | r in s.cores
      ensures h !in s.cores[r].blockCache
    {
      assert h in s.cores[r].blockCache ==> FiledAt(s.tree, s.cores[r], h);
    }
  }

  /** The leader builds and announces the next block. */
  lemma Opens(u: Setup, rule: VoteRule, cmds: seq<Bytes>, chain: seq<Block>, full: seq<Block>,
              moves: seq<Move>, p: Paced, run: seq<Action>)
      returns (longer: seq<Move>, q: Paced, leaf: Block)
    requires Grounds(u, cmds, chain, full) && Ready(u, cmds, chain, full, p) && |chain| <= |cmds|
    requires Leader(u, chain) in p.pms && BeatDue(moves, Leader(u, chain), p.pms[Leader(u, chain)])
    requires Playing(u, rule, moves, p, run)
    ensures Playing(u, rule, longer, q, run + [Opening(u, cmds, chain)])
    ensures Leafed(u, cmds, chain, full, leaf) && Passing(u, cmds, chain, full, leaf, {}, {Leader(u, chain)}, q)
  {
    leaf := LeafFound(u, cmds, chain, full, p);
    StoredNowhere(u, rule, run, CoresOf(p), leaf.selfQc.blockHash);
    assert forall r :: r in p.pms ==> CoresOf(p).cores[r] == p.pms[r].core;
    longer, q := BeatAndSend(u, rule, cmds, chain, full, moves, p, run, leaf);
    OpenedIsPassing(u, cmds, chain, full, leaf, p, q);
  }

  lemma BeatAndSend(u: Setup, rule: VoteRule, cmds: seq<Bytes>, chain: seq<Block>, full: seq<Block>,
              moves: seq<Move>, p: Paced, run: seq<Action>, leaf: Block)
      returns (longer: seq<Move>, q: Paced)
    requires Leafed(u, cmds, chain, full, leaf) && Ready(u, cmds, chain, full, p) && leaf.height == |chain|
    requires Leader(u, chain) in p.pms && BeatDue(moves, Leader(u, chain), p.pms[Leader(u, chain)])
    requires LeafOf(u, CoresOf(p), Opening(u, cmds, chain)) == Some(leaf) && Fits(CoresOf(p), leaf)
    requires Playing(u, rule, moves, p, run)
    ensures Playing(u, rule, longer, q, run + [Opening(u, cmds, chain)])
    ensures q == OutSent(u, chain, leaf, Beaten(u, chain, leaf, p, p.pms[Leader(u, chain)]))
  {
    var middle, m := Beats(u, rule, cmds, chain, full, moves, p, run, leaf, p.pms[Leader(u, chain)]);
    longer := Sends(u, rule, chain, leaf, middle, m, run + [Opening(u, cmds, chain)]);
    q := OutSent(u, chain, leaf, m);
  }

  // ---------------------------------------------------------------------------
  // The others receive the block

  /** Everybody has signed the last block below the leaf, and the leader the leaf. */
  lemma SeatSigned(u: Setup, cmds: seq<Bytes>, chain: seq<Block>, full: seq<Block>, leaf: Block,
                   done: set<ReplicaId>, voters: set<ReplicaId>, p: Paced, r: ReplicaId)
    requires Leafed(u, cmds, chain, full, leaf) && Passing(u, cmds, chain, full, leaf, done, voters, p) && r in p.pms
    ensures |chain| > 1 ==> HasSigned(WorldOf(CoresOf(p)), r, chain[|chain| - 1].selfQc.blockHash)
    ensures r == Leader(u, chain) || r in done ==> HasSigned(WorldOf(CoresOf(p)), r, leaf.selfQc.blockHash)
  {
    var k := |chain| - 1;
    assert SeatAt(u, chain, full, leaf, done, voters, r, p.pms[r]);
    if r == Leader(u, chain) || r in done {
      TopSigned(u, chain, full, r, CoresOf(p),
                WithVotes(leaf, if r == Leader(u, chain) || r != Counter(u, chain) then {Leader(u, chain)} else voters));
    } else if k > 0 {
      MineIsSame(u, chain, full, r);
      FollowerSigned(Mine(u, chain, full, r), k, CoresOf(p), r, k);
    }
  }

  lemma TopSigned(u: Setup, chain: seq<Block>, full: seq<Block>, r: ReplicaId, s: System, top: Block)
    requires u.metadata.n > 0 && chain != [] && SameBlocks(chain, full) && r in s.cores
    requires Caught(Mine(u, chain, full, r) + [top], |chain|, s.cores[r])
    ensures |chain| > 1 ==> HasSigned(WorldOf(s), r, chain[|chain| - 1].selfQc.blockHash)
    ensures HasSigned(WorldOf(s), r, top.selfQc.blockHash)
  {
    var mine, k := Mine(u, chain, full, r), |chain| - 1;
    MineIsSame(u, chain, full, r);
    assert (mine + [top])[k] == mine[k] && (mine + [top])[k + 1] == top;
    FollowerSigned(mine + [top], k + 1, s, r, k + 1);
    if k > 0 { FollowerSigned(mine + [top], k + 1, s, r, k); }
  }

  lemma OfferIsValid(u: Setup, cmds: seq<Bytes>, chain: seq<Block>, full: seq<Block>, leaf: Block,
                     done: set<ReplicaId>, voters: set<ReplicaId>, p: Paced)
    requires Leafed(u, cmds, chain, full, leaf) && Passing(u, cmds, chain, full, leaf, done, voters, p)
    requires |chain| == 1 ==> full[0].selfQc.signs == map[]
    ensures ValidBlock(u, CoresOf(p), Offer(u, chain, leaf))
  {
    var offers, k := chain + [Offer(u, chain, leaf)], |chain| - 1;
    TurnsDiffer(u, chain);
    SeatSigned(u, cmds, chain, full, leaf, done, voters, p, Leader(u, chain));
    assert offers[k + 1] == Offer(u, chain, leaf) && offers[k] == chain[k];
    assert OnTree(offers, k, p.tree);
    NextFits(u, offers, k + 1, p.tree);
    assert LinkedTo(EnvOf(u, 0), offers, k + 1);
    forall r | r in Honest(u) && k > 0
      ensures HasSigned(WorldOf(CoresOf(p)), r, chain[k].selfQc.blockHash)
    {
      SeatSigned(u, cmds, chain, full, leaf, done, voters, p, r);
    }
  }

  /** The highest certificate after a proposal is the old one or the proposal's justify. */
  lemma ReceiveHigh(env: Env, rule: VoteRule, c: Core, prop: Proposal)
    ensures var d := OnReceiveProposal(env, rule, c, prop).core;
            d.genericQC == c.genericQC || Some(d.genericQC) == prop.block.justify
  {
    UpdateHigh(env, StoreBlock(c, prop.block), prop.block);
  }

  lemma UpdateHigh(env: Env, c: Core, block: Block)
    ensures var d := Update(env, c, block).core; d.genericQC == c.genericQC || Some(d.genericQC) == block.justify
  {
  }

  lemma AcceptedIsAnnounced(env: Env, rule: VoteRule, c: Core, prop: Proposal)
    requires Accepts(env, c, prop.block)
    ensures ReceiveProposalEvent(prop, VoteProposal(env, prop.viewNumber, prop.block.selfQc.blockHash)) in
            OnReceiveProposal(env, rule, c, prop).core.events
  {
  }

  /** A replica's core after the delivery. */
  lemma FollowerHasLeaf(u: Setup, rule: VoteRule, cmds: seq<Bytes>, chain: seq<Block>, full: seq<Block>, leaf: Block,
                        r: ReplicaId, c: Core, prop: Proposal)
    requires Leafed(u, cmds, chain, full, leaf) && prop == Proposal(SentIn(u, chain), Offer(u, chain, leaf))
    requires Caught(Mine(u, chain, full, r), |chain| - 1, c) && HighUpTo(c, |chain| - 1)
    requires leaf.selfQc.blockHash !in c.blockCache
    ensures var d := OnReceiveProposal(EnvOf(u, r), rule, c, prop).core;
            && HasLeaf(u, chain, full, leaf, r, d) && d.voteSet == c.voteSet
            && ReceiveProposalEvent(prop, VoteOf(u, chain, leaf, r)) in d.events
    ensures Accepts(EnvOf(u, r), c, prop.block) && KnowsChain(StoreBlock(c, prop.block), prop.block)
  {
    var mine := Mine(u, chain, full, r);
    LeafIsLinear(u, chain, full, r, prop.block, prop.block);
    CaughtPrefix(mine, prop.block, |chain| - 1, c);
    FollowerVotes(u, rule, mine, prop, r, c);
    AcceptedIsAnnounced(EnvOf(u, r), rule, c, prop);
    TallyRuns.ReceiveStores(EnvOf(u, r), rule, c, prop);
    ReceiveHigh(EnvOf(u, r), rule, c, prop);
    HighStaysBelow(u, chain, full, leaf, r, c, OnReceiveProposal(EnvOf(u, r), rule, c, prop).core);
  }

  lemma HighStaysBelow(u: Setup, chain: seq<Block>, full: seq<Block>, leaf: Block, r: ReplicaId, c: Core, d: Core)
    requires u.metadata.n > 0 && chain != [] && SameBlocks(chain, full) && HighUpTo(c, |chain| - 1)
    requires Linear(EnvOf(u, 0), chain + [Offer(u, chain, leaf)]) && leaf.justify == Some(full[|chain| - 1].selfQc)
    requires HasAll(Mine(u, chain, full, r), |chain| - 1, c) && leaf.selfQc.blockHash !in c.blockCache
    requires d.blockCache == c.blockCache[leaf.selfQc.blockHash := Offer(u, chain, leaf)]
    requires d.genericQC == c.genericQC || Some(d.genericQC) == leaf.justify
    ensures HighBelow(d, leaf)
  {
    var mine, k := Mine(u, chain, full, r), |chain| - 1;
    var offers := chain + [Offer(u, chain, leaf)];
    MineIsSame(u, chain, full, r);
    assert LinkedTo(EnvOf(u, 0), offers, k + 1) && offers[k + 1] == Offer(u, chain, leaf);
    assert LinkedTo(EnvOf(u, 0), offers, k) && offers[k] == chain[k];
    assert mine[k].selfQc.blockHash in c.blockCache && mine[k].height == k;
  }

  function OfferTo(u: Setup, chain: seq<Block>, leaf: Block, r: ReplicaId): Action
    requires u.metadata.n > 0 && chain != []
  {
    Deliver(r, Proposal(SentIn(u, chain), Offer(u, chain, leaf)))
  }

  /** After the proposal has reached the core of `r`. */
  function Received(u: Setup, rule: VoteRule, chain: seq<Block>, leaf: Block, p: Paced, r: ReplicaId): Paced
    requires u.metadata.n > 0 && chain != [] && r in p.pms
  {
    var prop := Proposal(SentIn(u, chain), Offer(u, chain, leaf));
    Paced(p.tree, p.pms[r := p.pms[r].(core := OnReceiveProposal(EnvOf(u, r), rule, p.pms[r].core, prop).core)])
  }

  lemma OfferReaches(u: Setup, rule: VoteRule, cmds: seq<Bytes>, chain: seq<Block>, full: seq<Block>, leaf: Block,
                     done: set<ReplicaId>, voters: set<ReplicaId>, p: Paced, r: ReplicaId)
    requires Leafed(u, cmds, chain, full, leaf) && Passing(u, cmds, chain, full, leaf, done, voters, p)
    requires r in Honest(u) - {Leader(u, chain)} - done
    ensures OnTheWay(p, Pacemaker.ProposalToAll(SentIn(u, chain), Offer(u, chain, leaf)))
    ensures p.tree[leaf.selfQc.blockHash := NodeOf(Offer(u, chain, leaf))] == p.tree
    ensures r in p.pms && Accepts(EnvOf(u, r), p.pms[r].core, Offer(u, chain, leaf))
    ensures KnowsChain(StoreBlock(p.pms[r].core, Offer(u, chain, leaf)), Offer(u, chain, leaf))
    ensures var d := OnReceiveProposal(EnvOf(u, r), rule, p.pms[r].core,
                                       Proposal(SentIn(u, chain), Offer(u, chain, leaf))).core;
            && HasLeaf(u, chain, full, leaf, r, d) && d.voteSet == map[]
            && ReceiveProposalEvent(Proposal(SentIn(u, chain), Offer(u, chain, leaf)), VoteOf(u, chain, leaf, r)) in d.events
    ensures p.pms[r].queue == [] && p.pms[r].curView <= SentIn(u, chain)
  {
    var l := Leader(u, chain);
    TurnsDiffer(u, chain);
    assert SeatAt(u, chain, full, leaf, done, voters, r, p.pms[r]) &&
           SeatAt(u, chain, full, leaf, done, voters, l, p.pms[l]);
    FollowerHasLeaf(u, rule, cmds, chain, full, leaf, r, p.pms[r].core, Proposal(SentIn(u, chain), Offer(u, chain, leaf)));
    TreeHasAnnounced(chain, Offer(u, chain, leaf), p.tree);
  }

  lemma Receives(u: Setup, rule: VoteRule, cmds: seq<Bytes>, chain: seq<Block>, full: seq<Block>, leaf: Block,
                 done: set<ReplicaId>, voters: set<ReplicaId>, moves: seq<Move>, p: Paced, run: seq<Action>, r: ReplicaId)
    requires Leafed(u, cmds, chain, full, leaf) && Passing(u, cmds, chain, full, leaf, done, voters, p)
    requires Playing(u, rule, moves, p, run) && r in Honest(u) - {Leader(u, chain)} - done
    requires |chain| == 1 ==> full[0].selfQc.signs == map[]
    ensures Playing(u, rule, moves + [Arrive(OfferTo(u, chain, leaf, r))], Received(u, rule, chain, leaf, p, r),
                    run + [OfferTo(u, chain, leaf, r)])
  {
    var a := OfferTo(u, chain, leaf, r);
    OfferReaches(u, rule, cmds, chain, full, leaf, done, voters, p, r);
    OfferIsValid(u, cmds, chain, full, leaf, done, voters, p);
    DeliverInOrder(u, rule, run, CoresOf(p), r, a.prop);
    ArriveMove(u, rule, moves, p, run, a);
  }

  // ---------------------------------------------------------------------------
  // They pass their votes on

  /** With all leaders up the pacemaker goes to the proposal's view and passes the vote on once. */
  lemma Routes(u: Setup, r: ReplicaId, pm: Pacemaker.PM, k: nat, vote: Vote)
    requires Spread(u) && r in Honest(u) && pm.curView <= k && Up(u, k + 1)
    ensures var env, n := EnvOf(u, r), u.metadata.n;
            && Pacemaker.Seated(env) && Pacemaker.RoutedView(env, pm, k, NextUp(u)) == k
            && Pacemaker.Repeats(env, pm, k, NextUp(u)) == 1
            && PM.Handle(env, pm, PM.ProposalEv(k, vote, NextUp(u))) ==
               Pacemaker.PassVote(env, pm.(curView := k), k, vote)
  {
    var env, up := EnvOf(u, r), NextUp(u);
    assert Pacemaker.Settle(k, r, u.metadata.n, up) == k;
    assert Pacemaker.PassTimes(env, pm.(curView := k), k, vote, 1) ==
           Pacemaker.PassVote(env, Pacemaker.PassTimes(env, pm.(curView := k), k, vote, 0), k, vote);
  }

  function Heard(u: Setup, chain: seq<Block>, leaf: Block, r: ReplicaId): PM.PMEvent
    requires u.metadata.n > 0
  {
    PM.ProposalEv(SentIn(u, chain), VoteOf(u, chain, leaf, r), NextUp(u))
  }

  /** After a replica has sent its vote to the counter. */
  function VoteSent(u: Setup, chain: seq<Block>, leaf: Block, p: Paced, r: ReplicaId): Paced
    requires u.metadata.n > 0 && chain != [] && r in p.pms
  {
    var pm := p.pms[r];
    Paced(p.tree, p.pms[r := pm.(curView := SentIn(u, chain),
                                 sent := pm.sent + [Pacemaker.VoteTo(Counter(u, chain), VoteOf(u, chain, leaf, r))])])
  }

  lemma VoteGoesOut(u: Setup, chain: seq<Block>, leaf: Block, r: ReplicaId, pm: Pacemaker.PM)
    requires Spread(u) && chain != [] && r in Honest(u) && r != Counter(u, chain) && pm.curView <= SentIn(u, chain)
    ensures Pacemaker.Seated(EnvOf(u, r)) && Calls(EnvOf(u, r), pm, Heard(u, chain, leaf, r)) == []
    ensures PM.Handle(EnvOf(u, r), pm, Heard(u, chain, leaf, r)) ==
            pm.(curView := SentIn(u, chain),
                sent := pm.sent + [Pacemaker.VoteTo(Counter(u, chain), VoteOf(u, chain, leaf, r))])
  {
    TurnsDiffer(u, chain);
    Routes(u, r, pm, SentIn(u, chain), VoteOf(u, chain, leaf, r));
  }

  lemma HeardIsAnnounced(u: Setup, chain: seq<Block>, leaf: Block, r: ReplicaId, c: Core)
    requires u.metadata.n > 0 && chain != []
    requires ReceiveProposalEvent(Proposal(SentIn(u, chain), Offer(u, chain, leaf)), VoteOf(u, chain, leaf, r)) in c.events
    ensures Announced(c, Heard(u, chain, leaf, r))
  {
  }

  lemma SendsVote(u: Setup, rule: VoteRule, chain: seq<Block>, leaf: Block, moves: seq<Move>, p: Paced, run: seq<Action>,
                  r: ReplicaId)
    requires Spread(u) && chain != [] && Playing(u, rule, moves, p, run) && p.pms.Keys == Honest(u)
    requires r in p.pms && r != Counter(u, chain) && p.pms[r].curView <= SentIn(u, chain)
    requires ReceiveProposalEvent(Proposal(SentIn(u, chain), Offer(u, chain, leaf)),
                                  VoteOf(u, chain, leaf, r)) in p.pms[r].core.events
    ensures Playing(u, rule, moves + [Drive(r, Heard(u, chain, leaf, r))], VoteSent(u, chain, leaf, p, r), run)
  {
    VoteGoesOut(u, chain, leaf, r, p.pms[r]);
    HeardIsAnnounced(u, chain, leaf, r, p.pms[r].core);
    QuietMove(u, rule, moves, p, run, r, Heard(u, chain, leaf, r));
  }

  function Casting(u: Setup, chain: seq<Block>, leaf: Block, r: ReplicaId): Action
    requires u.metadata.n > 0
  {
    CastVote(Counter(u, chain), VoteOf(u, chain, leaf, r))
  }

  /** After the counter has counted the vote of `r`. */
  function Counts(u: Setup, chain: seq<Block>, leaf: Block, p: Paced, r: ReplicaId, view: int): Paced
    requires u.metadata.n > 0 && Counter(u, chain) in p.pms
  {
    var x, pm := Counter(u, chain), p.pms[Counter(u, chain)];
    Paced(p.tree, p.pms[x := pm.(curView := view,
                                 core := OnProposalVote(EnvOf(u, x), pm.core, VoteOf(u, chain, leaf, r)).core)])
  }

  lemma VoteIsCounted(u: Setup, chain: seq<Block>, leaf: Block, x: ReplicaId, pm: Pacemaker.PM)
    requires Spread(u) && chain != [] && x in Honest(u) && x == Counter(u, chain) && pm.curView <= SentIn(u, chain)
    ensures Pacemaker.Seated(EnvOf(u, x)) && Calls(EnvOf(u, x), pm, Heard(u, chain, leaf, x)) == [Casting(u, chain, leaf, x)]
    ensures PM.Handle(EnvOf(u, x), pm, Heard(u, chain, leaf, x)) ==
            pm.(curView := SentIn(u, chain), core := OnProposalVote(EnvOf(u, x), pm.core, VoteOf(u, chain, leaf, x)).core)
  {
    var a := Casting(u, chain, leaf, x);
    TurnsDiffer(u, chain);
    Routes(u, x, pm, SentIn(u, chain), VoteOf(u, chain, leaf, x));
    assert Repeat(a, 0) + [a] == [a] && Repeat(a, 1) == Repeat(a, 0) + [a];
  }

  /** The counter counts its own vote. */
  lemma CountsOwn(u: Setup, rule: VoteRule, chain: seq<Block>, leaf: Block, moves: seq<Move>, p: Paced, run: seq<Action>,
                  x: ReplicaId)
    requires Spread(u) && chain != [] && Playing(u, rule, moves, p, run) && p.pms.Keys == Honest(u)
    requires x == Counter(u, chain) && x in p.pms && p.pms[x].curView <= SentIn(u, chain)
    requires ReceiveProposalEvent(Proposal(SentIn(u, chain), Offer(u, chain, leaf)),
                                  VoteOf(u, chain, leaf, x)) in p.pms[x].core.events
    requires HasSigned(WorldOf(CoresOf(p)), x, leaf.selfQc.blockHash)
    ensures Playing(u, rule, moves + [Drive(x, Heard(u, chain, leaf, x))], Counts(u, chain, leaf, p, x, SentIn(u, chain)),
                    run + [Casting(u, chain, leaf, x)])
  {
    VoteIsCounted(u, chain, leaf, x, p.pms[x]);
    HeardIsAnnounced(u, chain, leaf, x, p.pms[x].core);
    CastInOrder(u, rule, run, CoresOf(p), x, VoteOf(u, chain, leaf, x));
    CallMove(u, rule, moves, p, run, x, Heard(u, chain, leaf, x), Casting(u, chain, leaf, x));
  }

  /** handleVote of the counter lets the vote through. */
  lemma PassesGuard(u: Setup, chain: seq<Block>, leaf: Block, r: ReplicaId)
    requires Spread(u) && chain != [] && r in Honest(u) && leaf.selfQc.blockHash != []
    ensures Admits(EnvOf(u, Counter(u, chain)), r, Wire(VoteOf(u, chain, leaf, r)))
  {
    TurnsDiffer(u, chain);
    OneCounter(u, r, SentIn(u, chain), leaf.selfQc.blockHash, VoteOf(u, chain, leaf, r), Counter(u, chain));
  }

  lemma LeafHashIsThere(u: Setup, cmds: seq<Bytes>, chain: seq<Block>, full: seq<Block>, leaf: Block)
    requires Leafed(u, cmds, chain, full, leaf)
    ensures leaf.selfQc.blockHash != []
  {
    assert (chain + [Offer(u, chain, leaf)])[|chain|].selfQc.blockHash == LedgerHash(u.digest, cmds, |chain|);
  }

  /** The counter counts a vote that was sent to it. */
  lemma CountsOther(u: Setup, rule: VoteRule, chain: seq<Block>, leaf: Block, moves: seq<Move>, p: Paced, run: seq<Action>,
                    r: ReplicaId)
    requires Spread(u) && chain != [] && Playing(u, rule, moves, p, run) && p.pms.Keys == Honest(u)
    requires Counter(u, chain) in p.pms && p.pms[Counter(u, chain)].curView == SentIn(u, chain) && r in p.pms
    requires Pacemaker.VoteTo(Counter(u, chain), VoteOf(u, chain, leaf, r)) in p.pms[r].sent
    requires HasSigned(WorldOf(CoresOf(p)), r, leaf.selfQc.blockHash) && leaf.selfQc.blockHash != []
    ensures Playing(u, rule, moves + [Arrive(Casting(u, chain, leaf, r))], Counts(u, chain, leaf, p, r, SentIn(u, chain)),
                    run + [Casting(u, chain, leaf, r)])
  {
    var x, vote := Counter(u, chain), VoteOf(u, chain, leaf, r);
    CastInOrder(u, rule, run, CoresOf(p), x, vote);
    assert OnTheWay(p, Pacemaker.VoteTo(x, vote));
    PassesGuard(u, chain, leaf, r);
    ArriveMove(u, rule, moves, p, run, CastVote(x, vote));
  }

  // ---------------------------------------------------------------------------
  // Rounds

  /** Who proposes what, and in which view. */
  function Turns(run: seq<Action>): seq<(ReplicaId, int, Bytes)> {
    if run == [] then []
    else
      var a := run[|run| - 1];
      Turns(run[..|run| - 1]) + if a.Propose? then [(a.r, a.curView, a.cmds)] else []
  }

  lemma TurnsMore(run: seq<Action>, a: Action)
    ensures Turns(run + [a]) == Turns(run) + if a.Propose? then [(a.r, a.curView, a.cmds)] else []
  {
    assert (run + [a])[..|run|] == run;
  }

  lemma TwiceAt<K, V>(m: map<K, V>, k: K, a: V, b: V)
    ensures m[k := a][k := b] == m[k := b]
  {
  }

  /** One replica moves. */
  lemma OtherSeat(u: Setup, chain: seq<Block>, full: seq<Block>, leaf: Block, done: set<ReplicaId>, voters: set<ReplicaId>,
                  r: ReplicaId, more: set<ReplicaId>, all: set<ReplicaId>, x: ReplicaId, pm: Pacemaker.PM)
    requires u.metadata.n > 0 && |full| == |chain| > 0 && SeatAt(u, chain, full, leaf, done, voters, x, pm) && x != r
    requires done <= more <= done + {r} && (r != Counter(u, chain) ==> all == voters)
    ensures SeatAt(u, chain, full, leaf, more, all, x, pm)
  {
  }

  lemma SeatMoves(u: Setup, cmds: seq<Bytes>, chain: seq<Block>, full: seq<Block>, leaf: Block,
                  done: set<ReplicaId>, voters: set<ReplicaId>, p: Paced,
                  r: ReplicaId, pm: Pacemaker.PM, more: set<ReplicaId>, all: set<ReplicaId>)
    requires Leafed(u, cmds, chain, full, leaf) && Passing(u, cmds, chain, full, leaf, done, voters, p)
    requires r in p.pms && r != Leader(u, chain) && done <= more <= done + {r} && (r != Counter(u, chain) ==> all == voters)
    requires Tallied(u, chain, more, all) && SeatAt(u, chain, full, leaf, more, all, r, pm)
    ensures Passing(u, cmds, chain, full, leaf, more, all, Paced(p.tree, p.pms[r := pm]))
  {
    var q := Paced(p.tree, p.pms[r := pm]);
    forall x | x in q.pms
      ensures SeatAt(u, chain, full, leaf, more, all, x, q.pms[x])
    {
      assert SeatAt(u, chain, full, leaf, done, voters, x, p.pms[x]);
      if x != r { OtherSeat(u, chain, full, leaf, done, voters, r, more, all, x, p.pms[x]); }
    }
  }

  /** The block reaches a replica that does not count, and its vote is sent. */
  lemma PassOn(u: Setup, rule: VoteRule, cmds: seq<Bytes>, chain: seq<Block>, full: seq<Block>, leaf: Block,
               done: set<ReplicaId>, voters: set<ReplicaId>, moves: seq<Move>, p: Paced, run: seq<Action>, r: ReplicaId)
      returns (longer: seq<Move>, q: Paced)
    requires Leafed(u, cmds, chain, full, leaf) && Passing(u, cmds, chain, full, leaf, done, voters, p)
    requires Playing(u, rule, moves, p, run) && r in Honest(u) - {Leader(u, chain)} - done && r != Counter(u, chain)
    requires |chain| == 1 ==> full[0].selfQc.signs == map[]
    ensures Playing(u, rule, longer, q, run + [OfferTo(u, chain, leaf, r)])
    ensures Passing(u, cmds, chain, full, leaf, done + {r}, voters, q)
  {
    var middle, m := moves + [Arrive(OfferTo(u, chain, leaf, r))], Received(u, rule, chain, leaf, p, r);
    OfferReaches(u, rule, cmds, chain, full, leaf, done, voters, p, r);
    Receives(u, rule, cmds, chain, full, leaf, done, voters, moves, p, run, r);
    SendsVote(u, rule, chain, leaf, middle, m, run + [OfferTo(u, chain, leaf, r)], r);
    longer, q := middle + [Drive(r, Heard(u, chain, leaf, r))], VoteSent(u, chain, leaf, m, r);
    PassedSeat(u, rule, cmds, chain, full, leaf, done, voters, p, r, q);
  }

  lemma PassedSeat(u: Setup, rule: VoteRule, cmds: seq<Bytes>, chain: seq<Block>, full: seq<Block>, leaf: Block,
                   done: set<ReplicaId>, voters: set<ReplicaId>, p: Paced, r: ReplicaId, q: Paced)
    requires Leafed(u, cmds, chain, full, leaf) && Passing(u, cmds, chain, full, leaf, done, voters, p)
    requires r in Honest(u) - {Leader(u, chain)} - done && r != Counter(u, chain)
    requires q == VoteSent(u, chain, leaf, Received(u, rule, chain, leaf, p, r), r)
    ensures Passing(u, cmds, chain, full, leaf, done + {r}, voters, q)
  {
    PassedPm(u, rule, cmds, chain, full, leaf, done, voters, p, r, q);
    TwiceAt(p.pms, r, Received(u, rule, chain, leaf, p, r).pms[r], q.pms[r]);
    SeatMoves(u, cmds, chain, full, leaf, done, voters, p, r, q.pms[r], done + {r}, voters);
  }

  lemma PassedPm(u: Setup, rule: VoteRule, cmds: seq<Bytes>, chain: seq<Block>, full: seq<Block>, leaf: Block,
                 done: set<ReplicaId>, voters: set<ReplicaId>, p: Paced, r: ReplicaId, q: Paced)
    requires Leafed(u, cmds, chain, full, leaf) && Passing(u, cmds, chain, full, leaf, done, voters, p)
    requires r in Honest(u) - {Leader(u, chain)} - done && r != Counter(u, chain)
    requires q == VoteSent(u, chain, leaf, Received(u, rule, chain, leaf, p, r), r)
    ensures r in p.pms && r in q.pms
    ensures Tallied(u, chain, done + {r}, voters) && SeatAt(u, chain, full, leaf, done + {r}, voters, r, q.pms[r])
  {
    OfferTaken(u, rule, cmds, chain, full, leaf, done, voters, p, r);
    FollowerSeat(u, chain, full, leaf, done, voters, r, p.pms[r], Received(u, rule, chain, leaf, p, r).pms[r].core);
  }

  lemma OfferTaken(u: Setup, rule: VoteRule, cmds: seq<Bytes>, chain: seq<Block>, full: seq<Block>, leaf: Block,
                   done: set<ReplicaId>, voters: set<ReplicaId>, p: Paced, r: ReplicaId)
    requires Leafed(u, cmds, chain, full, leaf) && Passing(u, cmds, chain, full, leaf, done, voters, p)
    requires r in Honest(u) - {Leader(u, chain)} - done
    ensures r in p.pms && p.pms[r].queue == []
    ensures var d := Received(u, rule, chain, leaf, p, r).pms[r].core;
            HasLeaf(u, chain, full, leaf, r, d) && d.voteSet == map[]
  {
    OfferReaches(u, rule, cmds, chain, full, leaf, done, voters, p, r);
  }

  lemma FollowerSeat(u: Setup, chain: seq<Block>, full: seq<Block>, leaf: Block, done: set<ReplicaId>,
                     voters: set<ReplicaId>,
                     r: ReplicaId, pm: Pacemaker.PM, d: Core)
    requires u.metadata.n > 0 && |full| == |chain| > 0 && HasLeaf(u, chain, full, leaf, r, d) && d.voteSet == map[]
    requires pm.queue == [] && r != Leader(u, chain) && r != Counter(u, chain)
    ensures SeatAt(u, chain, full, leaf, done + {r}, voters, r,
                   pm.(core := d, curView := SentIn(u, chain),
                       sent := pm.sent + [Pacemaker.VoteTo(Counter(u, chain), VoteOf(u, chain, leaf, r))]))
  {
  }

  /** The block reaches the counter, which counts its own vote. */
  lemma CounterJoins(u: Setup, rule: VoteRule, cmds: seq<Bytes>, chain: seq<Block>, full: seq<Block>, leaf: Block,
                     done: set<ReplicaId>, voters: set<ReplicaId>, moves: seq<Move>, p: Paced, run: seq<Action>,
                     x: ReplicaId)
      returns (longer: seq<Move>, q: Paced)
    requires Leafed(u, cmds, chain, full, leaf) && Passing(u, cmds, chain, full, leaf, done, voters, p)
    requires Playing(u, rule, moves, p, run) && x == Counter(u, chain) && x !in done
    requires |chain| == 1 ==> full[0].selfQc.signs == map[]
    ensures Playing(u, rule, longer, q, run + [OfferTo(u, chain, leaf, x)] + [Casting(u, chain, leaf, x)])
    ensures Passing(u, cmds, chain, full, leaf, done + {x}, voters + {x}, q)
  {
    TurnsDiffer(u, chain);
    var middle, m := moves + [Arrive(OfferTo(u, chain, leaf, x))], Received(u, rule, chain, leaf, p, x);
    OfferReaches(u, rule, cmds, chain, full, leaf, done, voters, p, x);
    Receives(u, rule, cmds, chain, full, leaf, done, voters, moves, p, run, x);
    TopSigned(u, chain, full, x, CoresOf(m), Offer(u, chain, leaf));
    CountsOwn(u, rule, chain, leaf, middle, m, run + [OfferTo(u, chain, leaf, x)], x);
    longer, q := middle + [Drive(x, Heard(u, chain, leaf, x))], Counts(u, chain, leaf, m, x, SentIn(u, chain));
    JoinedSeat(u, rule, cmds, chain, full, leaf, done, voters, p, x, q);
  }

  /** The core that counts one more vote. */
  lemma CoreCounts(u: Setup, cmds: seq<Bytes>, chain: seq<Block>, full: seq<Block>, leaf: Block, voters: set<ReplicaId>,
                   x: ReplicaId, c: Core, r: ReplicaId)
    requires Leafed(u, cmds, chain, full, leaf) && Collects(EnvOf(u, x), Mine(u, chain, full, x), leaf, voters, c)
    requires |voters| < GetQuorumSize(u.metadata) && r in Honest(u) - voters && voters <= Honest(u)
    ensures var d := OnProposalVote(EnvOf(u, x), c, VoteOf(u, chain, leaf, r)).core;
            Collects(EnvOf(u, x), Mine(u, chain, full, x), leaf, voters + {r}, d)
  {
    LeafIsLinear(u, chain, full, x, Offer(u, chain, leaf), leaf);
    CountsVote(u, x, Mine(u, chain, full, x), leaf, voters, c, r, SentIn(u, chain));
  }

  lemma JoinedSeat(u: Setup, rule: VoteRule, cmds: seq<Bytes>, chain: seq<Block>, full: seq<Block>, leaf: Block,
                   done: set<ReplicaId>, voters: set<ReplicaId>, p: Paced, x: ReplicaId, q: Paced)
    requires Leafed(u, cmds, chain, full, leaf) && Passing(u, cmds, chain, full, leaf, done, voters, p)
    requires x == Counter(u, chain) && x !in done && x in p.pms
    requires q == Counts(u, chain, leaf, Received(u, rule, chain, leaf, p, x), x, SentIn(u, chain))
    ensures Passing(u, cmds, chain, full, leaf, done + {x}, voters + {x}, q)
  {
    TurnsDiffer(u, chain);
    JoinedPm(u, rule, cmds, chain, full, leaf, done, voters, p, x, q);
    TwiceAt(p.pms, x, Received(u, rule, chain, leaf, p, x).pms[x], q.pms[x]);
    SeatMoves(u, cmds, chain, full, leaf, done, voters, p, x, q.pms[x], done + {x}, voters + {x});
  }

  lemma JoinedPm(u: Setup, rule: VoteRule, cmds: seq<Bytes>, chain: seq<Block>, full: seq<Block>, leaf: Block,
                 done: set<ReplicaId>, voters: set<ReplicaId>, p: Paced, x: ReplicaId, q: Paced)
    requires Leafed(u, cmds, chain, full, leaf) && Passing(u, cmds, chain, full, leaf, done, voters, p)
    requires x == Counter(u, chain) && x !in done && x in p.pms
    requires q == Counts(u, chain, leaf, Received(u, rule, chain, leaf, p, x), x, SentIn(u, chain))
    ensures x in q.pms
    ensures Tallied(u, chain, done + {x}, voters + {x}) &&
            SeatAt(u, chain, full, leaf, done + {x}, voters + {x}, x, q.pms[x])
  {
    TurnsDiffer(u, chain);
    OfferTaken(u, rule, cmds, chain, full, leaf, done, voters, p, x);
    CounterSeat(u, cmds, chain, full, leaf, done, x, p.pms[x], Received(u, rule, chain, leaf, p, x).pms[x].core);
  }

  lemma CounterSeat(u: Setup, cmds: seq<Bytes>, chain: seq<Block>, full: seq<Block>, leaf: Block, done: set<ReplicaId>,
                    x: ReplicaId, pm: Pacemaker.PM, d: Core)
    requires Leafed(u, cmds, chain, full, leaf) && HasLeaf(u, chain, full, leaf, x, d) && d.voteSet == map[]
    requires pm.queue == [] && x == Counter(u, chain)
    ensures SeatAt(u, chain, full, leaf, done + {x}, {Leader(u, chain)} + {x}, x,
                   pm.(core := OnProposalVote(EnvOf(u, x), d, VoteOf(u, chain, leaf, x)).core, curView := SentIn(u, chain)))
  {
    TurnsDiffer(u, chain);
    SpreadIsSeated(u);
    assert |{Leader(u, chain)}| == 1;
    CoreCounts(u, cmds, chain, full, leaf, {Leader(u, chain)}, x, d, x);
  }

  /** The counter counts one more vote. */
  lemma CountMore(u: Setup, rule: VoteRule, cmds: seq<Bytes>, chain: seq<Block>, full: seq<Block>, leaf: Block,
                  done: set<ReplicaId>, voters: set<ReplicaId>, moves: seq<Move>, p: Paced, run: seq<Action>, r: ReplicaId)
      returns (longer: seq<Move>, q: Paced)
    requires Leafed(u, cmds, chain, full, leaf) && Passing(u, cmds, chain, full, leaf, done, voters, p)
    requires Playing(u, rule, moves, p, run) && Counter(u, chain) in done && r in done - voters
    requires |voters| < GetQuorumSize(u.metadata)
    ensures Playing(u, rule, longer, q, run + [Casting(u, chain, leaf, r)])
    ensures Passing(u, cmds, chain, full, leaf, done, voters + {r}, q)
  {
    CountablePm(u, cmds, chain, full, leaf, done, voters, p, r);
    SeatSigned(u, cmds, chain, full, leaf, done, voters, p, r);
    LeafHashIsThere(u, cmds, chain, full, leaf);
    CountsOther(u, rule, chain, leaf, moves, p, run, r);
    longer, q := moves + [Arrive(Casting(u, chain, leaf, r))], Counts(u, chain, leaf, p, r, SentIn(u, chain));
    SeatMoves(u, cmds, chain, full, leaf, done, voters, p, Counter(u, chain), q.pms[Counter(u, chain)], done, voters + {r});
  }

  lemma CountablePm(u: Setup, cmds: seq<Bytes>, chain: seq<Block>, full: seq<Block>, leaf: Block,
                    done: set<ReplicaId>, voters: set<ReplicaId>, p: Paced, r: ReplicaId)
    requires Leafed(u, cmds, chain, full, leaf) && Passing(u, cmds, chain, full, leaf, done, voters, p)
    requires Counter(u, chain) in done && r in done - voters && |voters| < GetQuorumSize(u.metadata)
    ensures Counter(u, chain) in p.pms && p.pms[Counter(u, chain)].curView == SentIn(u, chain) && r in p.pms
    ensures Pacemaker.VoteTo(Counter(u, chain), VoteOf(u, chain, leaf, r)) in p.pms[r].sent
    ensures Tallied(u, chain, done, voters + {r})
    ensures SeatAt(u, chain, full, leaf, done, voters + {r}, Counter(u, chain),
                   Counts(u, chain, leaf, p, r, SentIn(u, chain)).pms[Counter(u, chain)])
  {
    var x := Counter(u, chain);
    TurnsDiffer(u, chain);
    assert SeatAt(u, chain, full, leaf, done, voters, r, p.pms[r]) &&
           SeatAt(u, chain, full, leaf, done, voters, x, p.pms[x]);
    CountingSeat(u, cmds, chain, full, leaf, done, voters, x, p.pms[x], r);
  }

  lemma CountingSeat(u: Setup, cmds: seq<Bytes>, chain: seq<Block>, full: seq<Block>, leaf: Block, done: set<ReplicaId>,
                     voters: set<ReplicaId>, x: ReplicaId, pm: Pacemaker.PM, r: ReplicaId)
    requires Leafed(u, cmds, chain, full, leaf) && SeatAt(u, chain, full, leaf, done, voters, x, pm)
    requires x == Counter(u, chain) && x in done && |voters| < GetQuorumSize(u.metadata)
    requires r in Honest(u) - voters && voters <= Honest(u)
    ensures SeatAt(u, chain, full, leaf, done, voters + {r}, x,
                   pm.(curView := SentIn(u, chain),
                       core := OnProposalVote(EnvOf(u, x), pm.core, VoteOf(u, chain, leaf, r)).core))
  {
    TurnsDiffer(u, chain);
    CoreCounts(u, cmds, chain, full, leaf, voters, x, pm.core, r);
  }

  /** The block reaches everybody. */
  lemma {:induction false} AllReceive(u: Setup, rule: VoteRule, cmds: seq<Bytes>, chain: seq<Block>, full: seq<Block>,
                                      leaf: Block,
                                      done: set<ReplicaId>, voters: set<ReplicaId>, moves: seq<Move>, p: Paced,
                                      run: seq<Action>)
      returns (longer: seq<Move>, q: Paced, calls: seq<Action>)
    requires Leafed(u, cmds, chain, full, leaf) && Passing(u, cmds, chain, full, leaf, done, voters, p)
    requires Playing(u, rule, moves, p, run) && Counter(u, chain) in done
    requires |chain| == 1 ==> full[0].selfQc.signs == map[]
    ensures Playing(u, rule, longer, q, calls) && Turns(calls) == Turns(run)
    ensures Passing(u, cmds, chain, full, leaf, Honest(u) - {Leader(u, chain)}, voters, q)
    decreases Honest(u) - {Leader(u, chain)} - done
  {
    if done == Honest(u) - {Leader(u, chain)} {
      longer, q, calls := moves, p, run;
    } else {
      var r := NotYet(Honest(u) - {Leader(u, chain)}, done);
      var next, m := PassOn(u, rule, cmds, chain, full, leaf, done, voters, moves, p, run, r);
      TurnsMore(run, OfferTo(u, chain, leaf, r));
      FewerLeft(Honest(u) - {Leader(u, chain)}, done, r);
      longer, q, calls := AllReceive(u, rule, cmds, chain, full, leaf, done + {r}, voters, next, m,
                                     run + [OfferTo(u, chain, leaf, r)]);
    }
  }

  /** The counter counts until there is a quorum. */
  lemma {:induction false} AllCount(u: Setup, rule: VoteRule, cmds: seq<Bytes>, chain: seq<Block>, full: seq<Block>,
                                    leaf: Block,
                                    voters: set<ReplicaId>, moves: seq<Move>, p: Paced, run: seq<Action>)
      returns (longer: seq<Move>, q: Paced, calls: seq<Action>, all: set<ReplicaId>)
    requires Leafed(u, cmds, chain, full, leaf)
    requires Passing(u, cmds, chain, full, leaf, Honest(u) - {Leader(u, chain)}, voters, p)
    requires Playing(u, rule, moves, p, run)
    ensures Playing(u, rule, longer, q, calls) && Turns(calls) == Turns(run)
    ensures Passing(u, cmds, chain, full, leaf, Honest(u) - {Leader(u, chain)}, all, q) && |all| >= GetQuorumSize(u.metadata)
    decreases GetQuorumSize(u.metadata) - |voters|
  {
    if |voters| >= GetQuorumSize(u.metadata) {
      longer, q, calls, all := moves, p, run, voters;
    } else {
      var r := NextVoter(u, chain, voters);
      var next, m := CountMore(u, rule, cmds, chain, full, leaf, Honest(u) - {Leader(u, chain)}, voters, moves, p, run, r);
      TurnsMore(run, Casting(u, chain, leaf, r));
      longer, q, calls, all := AllCount(u, rule, cmds, chain, full, leaf, voters + {r}, next, m,
                                        run + [Casting(u, chain, leaf, r)]);
    }
  }

  lemma NextVoter(u: Setup, chain: seq<Block>, voters: set<ReplicaId>) returns (r: ReplicaId)
    requires Spread(u) && chain != [] && Tallied(u, chain, Honest(u) - {Leader(u, chain)}, voters)
    requires |voters| < GetQuorumSize(u.metadata)
    ensures Counter(u, chain) in Honest(u) - {Leader(u, chain)} && r in Honest(u) - {Leader(u, chain)} - voters
  {
    TurnsDiffer(u, chain);
    HonestAreAQuorum(u);
    r := NotYet(Honest(u), voters);
  }

  // ---------------------------------------------------------------------------
  // The counter becomes the leader

  /** After the next command, if there is one, and OnQcFinishEvent. */
  function Promoted(cmds: seq<Bytes>, k: nat, view: int, pm: Pacemaker.PM): Pacemaker.PM {
    pm.(queue := if k < |cmds| then [cmds[k]] else [], curView := view,
        spawned := pm.spawned + [if k < |cmds| then Pacemaker.Beat else Pacemaker.NextSync])
  }

  lemma FinishPromotes(u: Setup, chain: seq<Block>, pm: Pacemaker.PM, qc: QuorumCert)
    requires Spread(u) && chain != [] && pm.curView == SentIn(u, chain) && qc.viewNumber == View(u, chain)
    ensures Pacemaker.Seated(EnvOf(u, Counter(u, chain))) && Calls(EnvOf(u, Counter(u, chain)), pm, PM.QcFinishEv(qc)) == []
    ensures PM.Handle(EnvOf(u, Counter(u, chain)), pm, PM.QcFinishEv(qc)) ==
            Pacemaker.BeatOrSync(pm.(curView := ViewOf(u, |chain|)))
  {
    TurnsDiffer(u, chain);
  }

  /** Handing the next leader its command. */
  lemma Submits(u: Setup, rule: VoteRule, moves: seq<Move>, p: Paced, run: seq<Action>, r: ReplicaId, cmd: Bytes)
    requires Playing(u, rule, moves, p, run) && p.pms.Keys == Honest(u) && r in p.pms && p.pms[r].queue == []
    ensures Playing(u, rule, moves + [Drive(r, PM.SubmitEv(cmd))], Handed(p, r, cmd), run)
  {
    QuietMove(u, rule, moves, p, run, r, PM.SubmitEv(cmd));
    assert p.pms[r].queue + [cmd] == [cmd];
  }

  lemma Promotes(u: Setup, rule: VoteRule, chain: seq<Block>, leaf: Block, moves: seq<Move>, p: Paced, run: seq<Action>,
                 x: ReplicaId, qc: QuorumCert)
    requires Spread(u) && chain != [] && Playing(u, rule, moves, p, run) && p.pms.Keys == Honest(u)
    requires x == Counter(u, chain) && x in p.pms && p.pms[x].curView == SentIn(u, chain) && qc.viewNumber == View(u, chain)
    requires QcFinishEvent(leaf.proposer, qc) in p.pms[x].core.events
    ensures Playing(u, rule, moves + [Drive(x, PM.QcFinishEv(qc))],
                    Paced(p.tree, p.pms[x := Pacemaker.BeatOrSync(p.pms[x].(curView := ViewOf(u, |chain|)))]), run)
  {
    FinishPromotes(u, chain, p.pms[x], qc);
    assert Announced(p.pms[x].core, PM.QcFinishEv(qc));
    QuietMove(u, rule, moves, p, run, x, PM.QcFinishEv(qc));
  }

  lemma Closes(u: Setup, rule: VoteRule, cmds: seq<Bytes>, chain: seq<Block>, leaf: Block,
               moves: seq<Move>, p: Paced, run: seq<Action>, x: ReplicaId, qc: QuorumCert)
      returns (longer: seq<Move>)
    requires Spread(u) && chain != [] && Playing(u, rule, moves, p, run) && p.pms.Keys == Honest(u)
    requires x == Counter(u, chain) && x in p.pms && p.pms[x].curView == SentIn(u, chain) &&
             qc.viewNumber == View(u, chain) && p.pms[x].queue == []
    requires QcFinishEvent(leaf.proposer, qc) in p.pms[x].core.events
    ensures Playing(u, rule, longer, Paced(p.tree, p.pms[x := Promoted(cmds, |chain|, ViewOf(u, |chain|), p.pms[x])]), run)
  {
    if |chain| < |cmds| {
      longer := ClosesOnward(u, rule, cmds, chain, leaf, moves, p, run, x, qc);
    } else {
      Promotes(u, rule, chain, leaf, moves, p, run, x, qc);
      longer := moves + [Drive(x, PM.QcFinishEv(qc))];
      assert Pacemaker.BeatOrSync(p.pms[x].(curView := ViewOf(u, |chain|))) ==
             Promoted(cmds, |chain|, ViewOf(u, |chain|), p.pms[x]);
    }
  }

  lemma ClosesOnward(u: Setup, rule: VoteRule, cmds: seq<Bytes>, chain: seq<Block>, leaf: Block,
                     moves: seq<Move>, p: Paced, run: seq<Action>, x: ReplicaId, qc: QuorumCert)
      returns (longer: seq<Move>)
    requires Spread(u) && 0 < |chain| < |cmds| && Playing(u, rule, moves, p, run) && p.pms.Keys == Honest(u)
    requires x == Counter(u, chain) && x in p.pms && p.pms[x].curView == SentIn(u, chain) &&
             qc.viewNumber == View(u, chain) && p.pms[x].queue == []
    requires QcFinishEvent(leaf.proposer, qc) in p.pms[x].core.events
    ensures Playing(u, rule, longer, Paced(p.tree, p.pms[x := Promoted(cmds, |chain|, ViewOf(u, |chain|), p.pms[x])]), run)
  {
    var m := Handed(p, x, cmds[|chain|]);
    var middle := moves + [Drive(x, PM.SubmitEv(cmds[|chain|]))];
    Submits(u, rule, moves, p, run, x, cmds[|chain|]);
    Promotes(u, rule, chain, leaf, middle, m, run, x, qc);
    HandedThenPromoted(p, x, cmds, |chain|, ViewOf(u, |chain|));
    longer := middle + [Drive(x, PM.QcFinishEv(qc))];
  }

  function Handed(p: Paced, x: ReplicaId, cmd: Bytes): Paced
    requires x in p.pms
  {
    Paced(p.tree, p.pms[x := p.pms[x].(queue := [cmd])])
  }

  lemma HandedThenPromoted(p: Paced, x: ReplicaId, cmds: seq<Bytes>, k: nat, view: int)
    requires x in p.pms && k < |cmds|
    ensures var m := Handed(p, x, cmds[k]);
            Paced(m.tree, m.pms[x := Pacemaker.BeatOrSync(m.pms[x].(curView := view))]) ==
            Paced(p.tree, p.pms[x := Promoted(cmds, k, view, p.pms[x])])
  {
    TwiceAt(p.pms, x, p.pms[x].(queue := [cmds[k]]), Promoted(cmds, k, view, p.pms[x]));
  }

  /** With a quorum counted, the chain is one block longer. */
  lemma GroundsGrow(u: Setup, cmds: seq<Bytes>, chain: seq<Block>, full: seq<Block>, leaf: Block, voters: set<ReplicaId>)
    requires Leafed(u, cmds, chain, full, leaf) && voters <= Honest(u) && |voters| >= GetQuorumSize(u.metadata)
    ensures Grounds(u, cmds, chain + [Offer(u, chain, leaf)], full + [WithVotes(leaf, voters)])
  {
    VotesVerify(u, voters, WithVotes(leaf, voters).selfQc);
    BlocksStaySame(chain, full, Offer(u, chain, leaf), WithVotes(leaf, voters));
  }

  lemma SeatWaits(u: Setup, cmds: seq<Bytes>, chain: seq<Block>, full: seq<Block>, leaf: Block, done: set<ReplicaId>,
                  voters: set<ReplicaId>, r: ReplicaId, before: Pacemaker.PM, pm: Pacemaker.PM)
    requires Leafed(u, cmds, chain, full, leaf) && |voters| >= GetQuorumSize(u.metadata)
    requires SeatAt(u, chain, full, leaf, done, voters, r, before) && (r in done || r == Leader(u, chain))
    requires pm.core == before.core && pm.curView <= ViewOf(u, |chain|) && (r != Counter(u, chain) ==> pm.queue == [])
    ensures Waits(u, chain + [Offer(u, chain, leaf)], full + [WithVotes(leaf, voters)], r, pm)
  {
    var offers, k, c := chain + [Offer(u, chain, leaf)], |chain| - 1, pm.core;
    TurnsDiffer(u, chain);
    MineGrows(u, chain, full, r, Offer(u, chain, leaf), WithVotes(leaf, voters));
    assert LinkedTo(EnvOf(u, 0), offers, k + 1) && offers[k + 1] == Offer(u, chain, leaf);
    if r == Counter(u, chain) {
      var mine := Mine(u, chain, full, r) + [WithVotes(leaf, voters)];
      assert mine[k + 1].selfQc.blockHash in c.blockCache;
    }
  }

  /** The counter's turn. */
  lemma PromotedTurn(u: Setup, cmds: seq<Bytes>, chain: seq<Block>, full: seq<Block>, leaf: Block, voters: set<ReplicaId>,
                     p: Paced, x: ReplicaId)
    requires Leafed(u, cmds, chain, full, leaf) && |voters| >= GetQuorumSize(u.metadata) && x == Counter(u, chain)
    requires Passing(u, cmds, chain, full, leaf, Honest(u) - {Leader(u, chain)}, voters, p)
    ensures x in p.pms && p.pms[x].queue == [] && p.pms[x].curView == SentIn(u, chain) && voters <= Honest(u)
    ensures QcFinishEvent(leaf.proposer, WithVotes(leaf, voters).selfQc) in p.pms[x].core.events
    ensures Turn(cmds, WithVotes(leaf, voters).selfQc, |chain|, ViewOf(u, |chain|),
                 Promoted(cmds, |chain|, ViewOf(u, |chain|), p.pms[x]))
  {
    TurnsDiffer(u, chain);
    assert SeatAt(u, chain, full, leaf, Honest(u) - {Leader(u, chain)}, voters, x, p.pms[x]);
  }

  lemma AllWait(u: Setup, cmds: seq<Bytes>, chain: seq<Block>, full: seq<Block>, leaf: Block, voters: set<ReplicaId>,
                p: Paced, q: Paced, x: ReplicaId, r: ReplicaId)
    requires Leafed(u, cmds, chain, full, leaf) && |voters| >= GetQuorumSize(u.metadata) && r in p.pms
    requires Passing(u, cmds, chain, full, leaf, Honest(u) - {Leader(u, chain)}, voters, p)
    requires x == Counter(u, chain) && x in p.pms &&
             q == Paced(p.tree, p.pms[x := Promoted(cmds, |chain|, ViewOf(u, |chain|), p.pms[x])])
    ensures Waits(u, chain + [Offer(u, chain, leaf)], full + [WithVotes(leaf, voters)], r, q.pms[r])
  {
    var done := Honest(u) - {Leader(u, chain)};
    assert SeatAt(u, chain, full, leaf, done, voters, r, p.pms[r]);
    SeatWaits(u, cmds, chain, full, leaf, done, voters, r, p.pms[r], q.pms[r]);
  }

  lemma EveryoneWaits(u: Setup, cmds: seq<Bytes>, chain: seq<Block>, full: seq<Block>, leaf: Block, voters: set<ReplicaId>,
                      p: Paced, q: Paced, x: ReplicaId)
    requires Leafed(u, cmds, chain, full, leaf) && |voters| >= GetQuorumSize(u.metadata)
    requires Passing(u, cmds, chain, full, leaf, Honest(u) - {Leader(u, chain)}, voters, p)
    requires x == Counter(u, chain) && x in p.pms &&
             q == Paced(p.tree, p.pms[x := Promoted(cmds, |chain|, ViewOf(u, |chain|), p.pms[x])])
    ensures Wait(u, chain + [Offer(u, chain, leaf)], full + [WithVotes(leaf, voters)], q)
  {
    forall r | r in q.pms
      ensures Waits(u, chain + [Offer(u, chain, leaf)], full + [WithVotes(leaf, voters)], r, q.pms[r])
    {
      AllWait(u, cmds, chain, full, leaf, voters, p, q, x, r);
    }
  }

  lemma ClosedIsReady(u: Setup, cmds: seq<Bytes>, chain: seq<Block>, full: seq<Block>, leaf: Block, voters: set<ReplicaId>,
                      p: Paced, q: Paced, x: ReplicaId)
    requires Leafed(u, cmds, chain, full, leaf) && |voters| >= GetQuorumSize(u.metadata)
    requires Passing(u, cmds, chain, full, leaf, Honest(u) - {Leader(u, chain)}, voters, p)
    requires x == Counter(u, chain) && x in p.pms &&
             q == Paced(p.tree, p.pms[x := Promoted(cmds, |chain|, ViewOf(u, |chain|), p.pms[x])])
    requires Grounds(u, cmds, chain + [Offer(u, chain, leaf)], full + [WithVotes(leaf, voters)])
    ensures Ready(u, cmds, chain + [Offer(u, chain, leaf)], full + [WithVotes(leaf, voters)], q)
  {
    PromotedTurn(u, cmds, chain, full, leaf, voters, p, x);
    EveryoneWaits(u, cmds, chain, full, leaf, voters, p, q, x);
    assert (full + [WithVotes(leaf, voters)])[|chain|] == WithVotes(leaf, voters);
  }

  // ---------------------------------------------------------------------------
  // Any number of commands

  /** Command k is proposed in the k-th of the views whose turn it is, by its leader. */
  function Schedule(u: Setup, cmds: seq<Bytes>, m: nat): seq<(ReplicaId, int, Bytes)>
    requires u.metadata.n > 0 && m <= |cmds|
  {
    seq(m, k requires 0 <= k < m => (SeatOf(u, k), ViewOf(u, k), cmds[k]))
  }

  lemma ScheduleMore(u: Setup, cmds: seq<Bytes>, m: nat)
    requires u.metadata.n > 0 && m < |cmds|
    ensures Schedule(u, cmds, m + 1) == Schedule(u, cmds, m) + [(SeatOf(u, m), ViewOf(u, m), cmds[m])]
  {
  }

  /** Every block justifies the one before, from the second on by a certificate that verifies. */
  predicate Justified(u: Setup, chain: seq<Block>) {
    forall i :: 1 <= i < |chain| ==>
      && chain[i].justify.Some? && chain[i].justify.value.blockHash == chain[i - 1].selfQc.blockHash
      && (i > 1 ==> QcVerifies(EnvOf(u, 0), chain[i].justify.value))
  }

  lemma JustifiedNext(u: Setup, cmds: seq<Bytes>, chain: seq<Block>, full: seq<Block>, leaf: Block)
    requires Leafed(u, cmds, chain, full, leaf) && Justified(u, chain)
    ensures Justified(u, chain + [Offer(u, chain, leaf)])
  {
    var offers := chain + [Offer(u, chain, leaf)];
    assert offers[|chain| - 1] == chain[|chain| - 1] &&
           full[|chain| - 1].selfQc.blockHash == chain[|chain| - 1].selfQc.blockHash;
    forall i | 1 <= i < |offers|
      ensures offers[i].justify.Some? && offers[i].justify.value.blockHash == offers[i - 1].selfQc.blockHash
      ensures i > 1 ==> QcVerifies(EnvOf(u, 0), offers[i].justify.value)
    {
      if i < |chain| { assert offers[i] == chain[i] && offers[i - 1] == chain[i - 1]; }
    }
  }

  /** After |chain| - 1 blocks. */
  ghost predicate Rolling(u: Setup, rule: VoteRule, cmds: seq<Bytes>, moves: seq<Move>, p: Paced, run: seq<Action>,
                          chain: seq<Block>, full: seq<Block>) {
    && Grounds(u, cmds, chain, full) && Ready(u, cmds, chain, full, p) && full[0] == Genesis(u.digest)
    && Justified(u, chain) && Playing(u, rule, moves, p, run) && Turns(run) == Schedule(u, cmds, |chain| - 1)
    && (|chain| <= |cmds| ==> Leader(u, chain) in p.pms && BeatDue(moves, Leader(u, chain), p.pms[Leader(u, chain)]))
  }

  /** Everybody gets the block, and the counter a quorum of votes. */
  lemma Votes(u: Setup, rule: VoteRule, cmds: seq<Bytes>, chain: seq<Block>, full: seq<Block>, leaf: Block,
              moves: seq<Move>, p: Paced, run: seq<Action>)
      returns (longer: seq<Move>, q: Paced, calls: seq<Action>, voters: set<ReplicaId>)
    requires Leafed(u, cmds, chain, full, leaf) && Passing(u, cmds, chain, full, leaf, {}, {Leader(u, chain)}, p)
    requires Playing(u, rule, moves, p, run) && full[0].selfQc.signs == map[]
    ensures Playing(u, rule, longer, q, calls) && Turns(calls) == Turns(run)
    ensures Passing(u, cmds, chain, full, leaf, Honest(u) - {Leader(u, chain)}, voters, q)
    ensures |voters| >= GetQuorumSize(u.metadata)
  {
    var x := Counter(u, chain);
    var joined, a := CounterJoins(u, rule, cmds, chain, full, leaf, {}, {Leader(u, chain)}, moves, p, run, x);
    var first := run + [OfferTo(u, chain, leaf, x)];
    TurnsMore(run, OfferTo(u, chain, leaf, x));
    TurnsMore(first, Casting(u, chain, leaf, x));
    longer, q, calls, voters := VotesOfOthers(u, rule, cmds, chain, full, leaf, {} + {x}, {Leader(u, chain)} + {x},
                                              joined, a, first + [Casting(u, chain, leaf, x)]);
  }

  lemma VotesOfOthers(u: Setup, rule: VoteRule, cmds: seq<Bytes>, chain: seq<Block>, full: seq<Block>, leaf: Block,
                      done: set<ReplicaId>, some: set<ReplicaId>, moves: seq<Move>, p: Paced, run: seq<Action>)
      returns (longer: seq<Move>, q: Paced, calls: seq<Action>, voters: set<ReplicaId>)
    requires Leafed(u, cmds, chain, full, leaf) && Passing(u, cmds, chain, full, leaf, done, some, p)
    requires Playing(u, rule, moves, p, run) && Counter(u, chain) in done && full[0].selfQc.signs == map[]
    ensures Playing(u, rule, longer, q, calls) && Turns(calls) == Turns(run)
    ensures Passing(u, cmds, chain, full, leaf, Honest(u) - {Leader(u, chain)}, voters, q)
    ensures |voters| >= GetQuorumSize(u.metadata)
  {
    var next, m, between := AllReceive(u, rule, cmds, chain, full, leaf, done, some, moves, p, run);
    longer, q, calls, voters := AllCount(u, rule, cmds, chain, full, leaf, some, next, m, between);
  }

  /** The counter takes over. */
  lemma TakesOver(u: Setup, rule: VoteRule, cmds: seq<Bytes>, chain: seq<Block>, full: seq<Block>, leaf: Block,
                  voters: set<ReplicaId>, moves: seq<Move>, p: Paced, run: seq<Action>)
      returns (longer: seq<Move>, q: Paced)
    requires Leafed(u, cmds, chain, full, leaf) && |voters| >= GetQuorumSize(u.metadata)
    requires Passing(u, cmds, chain, full, leaf, Honest(u) - {Leader(u, chain)}, voters, p)
    requires Playing(u, rule, moves, p, run) && full[0] == Genesis(u.digest) && Justified(u, chain)
    requires Turns(run) == Schedule(u, cmds, |chain|)
    ensures Rolling(u, rule, cmds, longer, q, run, chain + [Offer(u, chain, leaf)], full + [WithVotes(leaf, voters)])
  {
    var x := Counter(u, chain);
    PromotedTurn(u, cmds, chain, full, leaf, voters, p, x);
    q := Paced(p.tree, p.pms[x := Promoted(cmds, |chain|, ViewOf(u, |chain|), p.pms[x])]);
    GroundsGrow(u, cmds, chain, full, leaf, voters);
    ClosedIsReady(u, cmds, chain, full, leaf, voters, p, q, x);
    longer := Closes(u, rule, cmds, chain, leaf, moves, p, run, x, WithVotes(leaf, voters).selfQc);
    JustifiedNext(u, cmds, chain, full, leaf);
    BeatIsDue(cmds, |chain|, ViewOf(u, |chain|), longer, x, p.pms[x]);
  }

  lemma BeatIsDue(cmds: seq<Bytes>, k: nat, view: int, moves: seq<Move>, x: ReplicaId, pm: Pacemaker.PM)
    ensures k < |cmds| ==> BeatDue(moves, x, Promoted(cmds, k, view, pm))
  {
  }

  lemma NextTurn(u: Setup, cmds: seq<Bytes>, chain: seq<Block>, run: seq<Action>)
    requires u.metadata.n > 0 && 0 < |chain| <= |cmds| && Turns(run) == Schedule(u, cmds, |chain| - 1)
    ensures Turns(run + [Opening(u, cmds, chain)]) == Schedule(u, cmds, |chain|)
  {
    TurnsMore(run, Opening(u, cmds, chain));
    ScheduleMore(u, cmds, |chain| - 1);
  }

  /** One command: proposed, delivered, voted for and counted. */
  lemma RollOn(u: Setup, rule: VoteRule, cmds: seq<Bytes>, moves: seq<Move>, p: Paced, run: seq<Action>,
               chain: seq<Block>, full: seq<Block>)
      returns (longer: seq<Move>, q: Paced, calls: seq<Action>, announced: seq<Block>, certified: seq<Block>)
    requires Rolling(u, rule, cmds, moves, p, run, chain, full) && |chain| <= |cmds|
    ensures Rolling(u, rule, cmds, longer, q, calls, announced, certified) && |announced| == |chain| + 1
  {
    NextTurn(u, cmds, chain, run);
    var next, m, leaf := Opens(u, rule, cmds, chain, full, moves, p, run);
    longer, q, calls, announced, certified := RollHome(u, rule, cmds, chain, full, leaf, next, m,
                                                       run + [Opening(u, cmds, chain)]);
  }

  lemma RollHome(u: Setup, rule: VoteRule, cmds: seq<Bytes>, chain: seq<Block>, full: seq<Block>, leaf: Block,
                 moves: seq<Move>, p: Paced, run: seq<Action>)
      returns (longer: seq<Move>, q: Paced, calls: seq<Action>, announced: seq<Block>, certified: seq<Block>)
    requires Leafed(u, cmds, chain, full, leaf) && Passing(u, cmds, chain, full, leaf, {}, {Leader(u, chain)}, p)
    requires Playing(u, rule, moves, p, run) && full[0] == Genesis(u.digest) && Justified(u, chain)
    requires Turns(run) == Schedule(u, cmds, |chain|)
    ensures Rolling(u, rule, cmds, longer, q, calls, announced, certified) && |announced| == |chain| + 1
  {
    var next, m, voters;
    next, m, calls, voters := Votes(u, rule, cmds, chain, full, leaf, moves, p, run);
    longer, q := TakesOver(u, rule, cmds, chain, full, leaf, voters, next, m, calls);
    announced, certified := chain + [Offer(u, chain, leaf)], full + [WithVotes(leaf, voters)];
  }
}
