/** update returns nil although the justify of a block's justify is missing, and the replica votes without
    taking the lock. Agreement then fails even if every vote obeys the vote rule: a run in which one lost
    message makes two honest replicas decide blocks on different branches. */
module LostBlock {
  import opened Types
  import opened Quorum
  import opened Entity
  import opened Replica
  import opened BlockTree
  import opened World
  import opened System
  import opened DecideRuns
  import opened Progress
  import opened Fork
  import TallyRuns

  /** On the first chain replica 2 misses block 1 and helps to certify block 3. */
  function PlanB(): seq<Basis> {
    [OnGenesis, OnParent({0, 1, 3}), OnParent({0, 1, 3}), OnParent({0, 2, 3})]
  }

  /** The second chain has no certificates up to height 4. */
  function PlanC(): seq<Basis> {
    [OnGenesis, OnGenesis, OnGenesis, OnGenesis, OnParent({1, 2, 3}), OnParent({1, 2, 3}), OnParent({1, 2, 3})]
  }

  /** What the deliveries need of the setup. */
  predicate Ready(u: Setup) {
    && Sound(u) && Honest(u) == {0, 1, 2} && u.replicas == {0, 1, 2, 3} && u.faulty == {3}
    && GetQuorumSize(u.metadata) == 3
  }

  // ---------------------------------------------------------------------------
  // The first chain: replica 0 decides block 1

  lemma PrefixIsPlanned(digest: Bytes -> Hash, b: seq<Block>, plan: seq<Basis>, n: nat)
    requires Planned(digest, b, plan) && n <= |plan|
    ensures Planned(digest, b[..n + 1], plan[..n])
  {
    var c, short := b[..n + 1], plan[..n];
    forall i | 1 <= i < |c|
      ensures PlannedAt(digest, c, short, i)
    {
      assert PlannedAt(digest, b, plan, i);
    }
    forall i, j | 0 <= i < j < |c|
      ensures ApartAt(c, i, j)
    {
      assert ApartAt(b, i, j);
    }
  }

  /** Replicas 0 and 1 follow the first chain up to height 2. */
  lemma FirstTwo(u: Setup, b: seq<Block>) returns (run: seq<Action>, s: System)
    requires Ready(u) && Planned(u.digest, b, PlanB())
    ensures Exec(u, Meant, run) == Some(s) && Round(u, b[..4], {0, 1}, 2, {0, 1}, s)
  {
    PrefixIsPlanned(u.digest, b, PlanB(), 3);
    assert |{0, 1, 3}| == 3 && {0, 1} + {3} == {0, 1, 3};
    PlannedIsEndorsed(u, b[..4], PlanB()[..3], {0, 1});
    run, s := Rounds(u, Meant, b[..4], {0, 1}, 2);
  }

  /** A replica whose certificates are all still genesis. */
  predicate Fresh(g: Block, s: Core) {
    && TallyRuns.Keyed(s) && g.selfQc.blockHash in s.blockCache && s.blockCache[g.selfQc.blockHash] == g
    && s.lockedQC.blockHash == g.selfQc.blockHash && s.execQC.blockHash == g.selfQc.blockHash
  }

  /** Without block 1, block 2 is stored and nothing else happens. */
  lemma MissesOne(env: Env, b: seq<Block>)
    requires Linear(env, b) && |b| == 5
    ensures OnReceiveProposal(env, Meant, Initial(env), Proposal(0, b[2])).core == StoreBlock(Initial(env), b[2])
  {
    assert LinkedTo(env, b, 2) && LinkedTo(env, b, 0);
    assert ApartAt(b, 0, 1) && ApartAt(b, 1, 2);
  }

  /** Block 3 is then accepted, and signed under the genesis lock. */
  lemma VotesUnlocked(env: Env, b: seq<Block>)
    requires Linear(env, b) && |b| == 5
    ensures var d := OnReceiveProposal(env, Meant, StoreBlock(Initial(env), b[2]), Proposal(0, b[3])).core;
            Fresh(b[0], d) && d.voteHeight == 3 && HasBallot(d, b[3].selfQc.blockHash)
  {
    var before := StoreBlock(Initial(env), b[2]);
    var s, d := StoreBlock(before, b[3]), OnReceiveProposal(env, Meant, before, Proposal(0, b[3])).core;
    StoreWithGap(env, b);
    assert LinkedTo(env, b, 3) && LinkedTo(env, b, 2) && LinkedTo(env, b, 0);
    UpdateHalts(env, s, b[3], b[2]);
    var s1 := Update(env, s, b[3]).core;
    assert Judge(s1, b[3]).Raise?;
    ReceiveRaises(env, Meant, before, Proposal(0, b[3]), s1);
  }

  lemma StoreWithGap(env: Env, b: seq<Block>)
    requires Linear(env, b) && |b| == 5
    ensures var s := StoreBlock(StoreBlock(Initial(env), b[2]), b[3]);
            && b[1].selfQc.blockHash !in s.blockCache && TallyRuns.Keyed(s)
            && b[0].selfQc.blockHash in s.blockCache && s.blockCache[b[0].selfQc.blockHash] == b[0]
            && b[2].selfQc.blockHash in s.blockCache && s.blockCache[b[2].selfQc.blockHash] == b[2]
  {
    assert ApartAt(b, 0, 1) && ApartAt(b, 1, 2) && ApartAt(b, 1, 3) && ApartAt(b, 0, 2) && ApartAt(b, 0, 3) && ApartAt(b, 2, 3);
  }

  /** Without the justify of the justify, update succeeds and leaves the lock alone. */
  lemma UpdateHalts(env: Env, s: Core, block: Block, block2: Block)
    requires JustifyBlock(s, block) == Some(block2) && JustifyBlock(s, block2).None?
    ensures var o := Update(env, s, block); o.ok && o.core == s.(genericQC := o.core.genericQC, events := o.core.events)
  {
  }

  lemma SignedByTwo(u: Setup, s: System, x: ReplicaId, y: ReplicaId, h: Hash)
    requires Ready(u) && x in s.cores && y in s.cores && HasBallot(s.cores[x], h) && HasBallot(s.cores[y], h)
    ensures AllSigned(u, s, {x, y, 3}, h)
  {
    BallotIsSigned(s, x, h);
    BallotIsSigned(s, y, h);
  }

  lemma CaughtHasBallot(chain: seq<Block>, n: nat, c: Core, i: nat)
    requires n < |chain| && Caught(chain, n, c) && 1 <= i <= n
    ensures HasBallot(c, chain[i].selfQc.blockHash)
  {
    assert c.signed[i - 1].hash == chain[i].selfQc.blockHash;
  }

  /** Replicas 0 and 1 have blocks 1 and 2. */
  predicate Halfway(u: Setup, b: seq<Block>, s: System)
    requires |b| == 5
  {
    && s.cores.Keys == {0, 1, 2} && OnlyChain(b, s.tree) && OnTree(b, 2, s.tree)
    && Caught(b, 2, s.cores[0]) && Caught(b, 2, s.cores[1]) && s.cores[2] == Initial(EnvOf(u, 2))
  }

  lemma PrefixTree(digest: Bytes -> Hash, b: seq<Block>, c: seq<Block>, t: Tree)
    requires Planned(digest, b, PlanB()) && c == b[..4] && OnlyChain(c, t) && OnTree(c, 2, t)
    ensures OnlyChain(b, t) && OnTree(b, 2, t)
  {
    forall h | h in t
      ensures OfChain(b, h)
    {
      assert OfChain(c, h);
      var i :| 0 <= i < |c| && h == c[i].selfQc.blockHash;
      assert b[i] == c[i];
    }
    OwnHash(b, 4);
    if OfChain(c, b[4].selfQc.blockHash) { assert false; }
    forall i | 0 <= i < |b| && b[i].selfQc.blockHash in t
      ensures t[b[i].selfQc.blockHash] == NodeOf(b[i])
    {
      assert i < 4 && c[i] == b[i];
    }
    assert c[0] == b[0] && c[1] == b[1] && c[2] == b[2];
  }

  lemma TwoIsHalfway(u: Setup, b: seq<Block>, c: seq<Block>, s: System)
    requires Ready(u) && |b| == 5 && Planned(u.digest, b, PlanB()) && c == b[..4] && Round(u, c, {0, 1}, 2, {0, 1}, s)
    ensures Halfway(u, b, s)
  {
    PrefixTree(u.digest, b, c, s.tree);
    assert 0 in s.cores && 1 in s.cores && 2 in s.cores;
    CaughtLonger(b, c, s.cores[0]);
    CaughtLonger(b, c, s.cores[1]);
  }

  lemma CaughtLonger(b: seq<Block>, c: seq<Block>, s: Core)
    requires |b| == 5 && c == b[..4] && Caught(c, 2, s)
    ensures Caught(b, 2, s)
  {
    assert forall i :: 0 <= i < 4 ==> b[i] == c[i];
  }

  /** Replica 0 has decided block 1 of the first chain; replicas 1 and 2 are locked on genesis. */
  predicate FirstDone(b: seq<Block>, s: System)
    requires |b| == 5
  {
    && s.cores.Keys == {0, 1, 2} && OnlyChain(b, s.tree) && OnTree(b, 4, s.tree) && Caught(b, 4, s.cores[0])
    && Fresh(b[0], s.cores[1]) && s.cores[1].voteHeight <= 3
    && Fresh(b[0], s.cores[2]) && s.cores[2].voteHeight <= 3
  }

  /** Block n + 1 of the first chain goes to `r`. */
  lemma SendFirst(u: Setup, b: seq<Block>, n: nat, x: ReplicaId, y: ReplicaId, run: seq<Action>, s: System, r: ReplicaId)
      returns (longer: seq<Action>, t: System)
    requires Ready(u) && Planned(u.digest, b, PlanB()) && 1 <= n <= 3 && OnTree(b, n, s.tree) && OnlyChain(b, s.tree)
    requires (x, y) == if n == 3 then (0, 2) else (0, 1)
    requires s.cores.Keys == {0, 1, 2} && r in s.cores && Exec(u, Meant, run) == Some(s)
    requires HasBallot(s.cores[x], b[n].selfQc.blockHash) && HasBallot(s.cores[y], b[n].selfQc.blockHash)
    ensures Exec(u, Meant, longer) == Some(t) && OnTree(b, n + 1, t.tree) && OnlyChain(b, t.tree)
    ensures t.cores == s.cores[r := OnReceiveProposal(EnvOf(u, r), Meant, s.cores[r], Proposal(0, b[n + 1])).core]
  {
    SignedByTwo(u, s, x, y, b[n].selfQc.blockHash);
    assert |{x, y, 3}| == 3;
    longer, t := SendNext(u, Meant, b, PlanB(), n, run, s, r);
    OnlyChainGrows(b, n + 1, s.tree);
  }

  /** Replica 2 gets block n + 1. */
  lemma TwoNext(u: Setup, b: seq<Block>, n: nat, run: seq<Action>, s: System) returns (longer: seq<Action>, t: System)
    requires Ready(u) && Planned(u.digest, b, PlanB()) && |b| == 5 && 1 <= n <= 2
    requires Exec(u, Meant, run) == Some(s) && OnTree(b, 2, s.tree) && OnlyChain(b, s.tree)
    requires s.cores.Keys == {0, 1, 2} && Caught(b, 2, s.cores[0]) && Caught(b, 2, s.cores[1])
    ensures Exec(u, Meant, longer) == Some(t) && OnTree(b, n + 1, t.tree) && OnlyChain(b, t.tree)
    ensures t.cores == s.cores[2 := OnReceiveProposal(EnvOf(u, 2), Meant, s.cores[2], Proposal(0, b[n + 1])).core]
  {
    CaughtHasBallot(b, 2, s.cores[0], n);
    CaughtHasBallot(b, 2, s.cores[1], n);
    longer, t := SendFirst(u, b, n, 0, 1, run, s, 2);
  }

  /** Replica 2 gets block 2, then block 3, but never block 1. */
  lemma TwoVotes(u: Setup, b: seq<Block>, run: seq<Action>, s: System) returns (longer: seq<Action>, t: System)
    requires Ready(u) && Planned(u.digest, b, PlanB()) && Linear(EnvOf(u, 0), b) && |b| == 5
    requires Exec(u, Meant, run) == Some(s) && Halfway(u, b, s)
    ensures Exec(u, Meant, longer) == Some(t) && OnTree(b, 3, t.tree) && OnlyChain(b, t.tree)
    ensures t.cores.Keys == {0, 1, 2} && t.cores[0] == s.cores[0] && t.cores[1] == s.cores[1]
    ensures Fresh(b[0], t.cores[2]) && t.cores[2].voteHeight == 3 && HasBallot(t.cores[2], b[3].selfQc.blockHash)
  {
    LinearForAll(u, b, 2);
    var middle, m := TwoNext(u, b, 1, run, s);
    MissesOne(EnvOf(u, 2), b);
    longer, t := TwoNext(u, b, 2, middle, m);
    VotesUnlocked(EnvOf(u, 2), b);
  }

  /** Replica 0 gets the next block. */
  lemma ZeroNext(u: Setup, b: seq<Block>, n: nat, y: ReplicaId, run: seq<Action>, s: System) returns (longer: seq<Action>, t: System)
    requires Ready(u) && Planned(u.digest, b, PlanB()) && Linear(EnvOf(u, 0), b) && |b| == 5
    requires 2 <= n <= 3 && y == if n == 3 then 2 else 1
    requires Exec(u, Meant, run) == Some(s) && OnTree(b, n, s.tree) && OnlyChain(b, s.tree)
    requires s.cores.Keys == {0, 1, 2} && Caught(b, n, s.cores[0]) && HasBallot(s.cores[y], b[n].selfQc.blockHash)
    ensures Exec(u, Meant, longer) == Some(t) && OnTree(b, n + 1, t.tree) && OnlyChain(b, t.tree)
    ensures t.cores.Keys == {0, 1, 2} && Caught(b, n + 1, t.cores[0])
    ensures t.cores[1] == s.cores[1] && t.cores[2] == s.cores[2]
  {
    var c := s.cores[0];
    CaughtHasBallot(b, n, c, n);
    longer, t := SendFirst(u, b, n, 0, y, run, s, 0);
    ZeroCatches(u, b, n, c, t.cores[0]);
  }

  lemma ZeroCatches(u: Setup, b: seq<Block>, n: nat, c: Core, d: Core)
    requires Linear(EnvOf(u, 0), b) && n + 1 < |b| && Caught(b, n, c)
    requires d == OnReceiveProposal(EnvOf(u, 0), Meant, c, Proposal(0, b[n + 1])).core
    ensures Caught(b, n + 1, d)
  {
    CatchUp(EnvOf(u, 0), Meant, b, n, c, 0);
  }

  /** Replica 0 gets blocks 3 and 4. */
  lemma ZeroDecides(u: Setup, b: seq<Block>, run: seq<Action>, s: System) returns (longer: seq<Action>, t: System)
    requires Ready(u) && Planned(u.digest, b, PlanB()) && Linear(EnvOf(u, 0), b) && |b| == 5
    requires Exec(u, Meant, run) == Some(s) && OnTree(b, 3, s.tree) && OnlyChain(b, s.tree)
    requires s.cores.Keys == {0, 1, 2} && Caught(b, 2, s.cores[0]) && Caught(b, 2, s.cores[1])
    requires HasBallot(s.cores[2], b[3].selfQc.blockHash)
    ensures Exec(u, Meant, longer) == Some(t) && OnTree(b, 4, t.tree) && OnlyChain(b, t.tree)
    ensures t.cores.Keys == {0, 1, 2} && Caught(b, 4, t.cores[0]) && t.cores[1] == s.cores[1] && t.cores[2] == s.cores[2]
  {
    CaughtHasBallot(b, 2, s.cores[1], 2);
    longer, t := ZeroNext(u, b, 2, 1, run, s);
    longer, t := ZeroNext(u, b, 3, 2, longer, t);
  }

  lemma FirstChain(u: Setup, b: seq<Block>) returns (run: seq<Action>, s: System)
    requires Ready(u) && Planned(u.digest, b, PlanB()) && Linear(EnvOf(u, 0), b) && |b| == 5
    ensures Exec(u, Meant, run) == Some(s) && FirstDone(b, s)
  {
    run, s := FirstTwo(u, b);
    TwoIsHalfway(u, b, b[..4], s);
    run, s := TwoVotes(u, b, run, s);
    run, s := ZeroDecides(u, b, run, s);
  }

  // ---------------------------------------------------------------------------
  // The second chain: replica 1 decides block 4

  /** A replica that has blocks 0 to n of the second chain, has signed those from height 4 on, and was locked
      on genesis until block 6 arrived. */
  predicate Roams(c: seq<Block>, n: nat, s: Core)
    requires n < |c| == 8
  {
    && TallyRuns.Keyed(s) && HasAll(c, n, s) && s.execQC.blockHash == c[0].selfQc.blockHash
    && s.lockedQC.blockHash == c[if n >= 6 then 4 else 0].selfQc.blockHash
    && s.voteHeight <= (if n <= 3 then 3 else n)
    && forall i :: 4 <= i <= n ==> HasBallot(s, c[i].selfQc.blockHash)
  }

  /** A replica moves from s to d when it receives block n + 1. */
  predicate Moves(c: seq<Block>, n: nat, s: Core, d: Core)
    requires n + 1 < |c| == 8
  {
    && d.blockCache == s.blockCache[c[n + 1].selfQc.blockHash := c[n + 1]]
    && d.execQC == s.execQC && d.lockedQC.blockHash == c[if n >= 5 then 4 else 0].selfQc.blockHash
    && s.signed <= d.signed
    && ((d.voteHeight == s.voteHeight && n < 3) || (d.voteHeight == n + 1 && HasBallot(d, c[n + 1].selfQc.blockHash)))
  }

  lemma MovesOn(digest: Bytes -> Hash, c: seq<Block>, n: nat, s: Core, d: Core)
    requires Planned(digest, c, PlanC()) && n <= 5 && Roams(c, n, s) && Moves(c, n, s, d)
    ensures Roams(c, n + 1, d)
  {
    HasAllNext(c, n, s);
    assert HasAll(c, n + 1, d);
    forall i | 4 <= i <= n
      ensures HasBallot(d, c[i].selfQc.blockHash)
    {
      BallotsStay(s, d, c[i].selfQc.blockHash);
    }
  }

  /** Blocks 5 to 7 justify their parents. */
  lemma OnParentAt(digest: Bytes -> Hash, c: seq<Block>, i: nat)
    requires Planned(digest, c, PlanC()) && 5 <= i <= 7
    ensures c[i].height == i && c[i].parentHash == c[i - 1].selfQc.blockHash
    ensures c[i].justify.Some? && c[i].justify.value.blockHash == c[i - 1].selfQc.blockHash
  {
    assert PlannedAt(digest, c, PlanC(), i);
  }

  /** Blocks 1 to 4 justify genesis. */
  lemma OnGenesisAt(digest: Bytes -> Hash, c: seq<Block>, i: nat)
    requires Planned(digest, c, PlanC()) && 1 <= i <= 4
    ensures c[i].height == i && c[i].parentHash == c[i - 1].selfQc.blockHash
    ensures c[i].justify.Some? && c[i].justify.value.blockHash == c[0].selfQc.blockHash
    ensures c[0] == Genesis(digest) && GetBlockHash(digest, c[i]) == c[i].selfQc.blockHash
  {
    assert PlannedAt(digest, c, PlanC(), i);
  }

  lemma {:induction false} WalksToGenesis(digest: Bytes -> Hash, c: seq<Block>, n: nat, s: Core, k: nat)
    requires Planned(digest, c, PlanC()) && n < |c| && HasAll(c, n, s) && k <= n
    ensures ParentWalk(s.blockCache, c[k], k) == Some(c[0])
  {
    if k > 0 {
      assert PlannedAt(digest, c, PlanC(), k) && c[k - 1].selfQc.blockHash in s.blockCache;
      WalksToGenesis(digest, c, n, s, k - 1);
    }
  }

  /** The certificates and the store after update, and that the vote rule then accepts the block or finds it low. */
  predicate Updated(s: Core, block: Block, o: Outcome, lock: Hash) {
    && o.ok && o.core == s.(genericQC := o.core.genericQC, lockedQC := o.core.lockedQC, events := o.core.events)
    && o.core.lockedQC.blockHash == lock
    && (block.height > s.voteHeight ==> Judge(o.core, block).Raise?)
  }

  lemma UpdatedMoves(env: Env, c: seq<Block>, n: nat, s: Core)
    requires n + 1 < |c| == 8 && c[n + 1].height == n + 1 && (n >= 3 ==> s.voteHeight <= n)
    requires var s1 := StoreBlock(s, c[n + 1]);
             Updated(s1, c[n + 1], Update(env, s1, c[n + 1]), c[if n >= 5 then 4 else 0].selfQc.blockHash)
    ensures Moves(c, n, s, OnReceiveProposal(env, Meant, s, Proposal(0, c[n + 1])).core)
  {
    var s1 := StoreBlock(s, c[n + 1]);
    var o := Update(env, s1, c[n + 1]);
    var d := OnReceiveProposal(env, Meant, s, Proposal(0, c[n + 1])).core;
  }

  /** Blocks 1 to 4 justify genesis: nothing moves, and the walk to the locked genesis succeeds. */
  lemma UpdateOnGenesis(env: Env, c: seq<Block>, n: nat, s: Core)
    requires Planned(env.digest, c, PlanC()) && n <= 3 && HasAll(c, n + 1, s)
    requires s.lockedQC.blockHash == c[0].selfQc.blockHash
    ensures Updated(s, c[n + 1], Update(env, s, c[n + 1]), c[0].selfQc.blockHash)
  {
    OnGenesisAt(env.digest, c, n + 1);
    var o := Update(env, s, c[n + 1]);
    var s1 := UpdateHighestQC(env, s, c[0], c[n + 1].justify.value);
    assert s1 == s.(genericQC := s1.genericQC, events := s1.events) && o == Outcome(s1, true);
    WalksToGenesis(env.digest, c, n + 1, s1, n + 1);
  }

  /** Block 5 justifies block 4, which justifies genesis. */
  lemma UpdateOnFour(env: Env, c: seq<Block>, s: Core)
    requires Planned(env.digest, c, PlanC()) && HasAll(c, 5, s) && s.lockedQC.blockHash == c[0].selfQc.blockHash
    ensures Updated(s, c[5], Update(env, s, c[5]), c[0].selfQc.blockHash)
  {
    OnParentAt(env.digest, c, 5);
    OnGenesisAt(env.digest, c, 4);
    var s1 := UpdateHighestQC(env, s, c[4], c[5].justify.value);
    assert s1 == s.(genericQC := s1.genericQC, events := s1.events);
    assert Update(env, s, c[5]) == Outcome(s1, true);
  }

  /** Block 6 locks block 4; blocks 5 and 4 are no three-chain. */
  lemma UpdateOnFive(env: Env, c: seq<Block>, s: Core)
    requires Planned(env.digest, c, PlanC()) && HasAll(c, 6, s) && s.lockedQC.blockHash == c[0].selfQc.blockHash
    ensures Updated(s, c[6], Update(env, s, c[6]), c[4].selfQc.blockHash)
  {
    OnParentAt(env.digest, c, 6);
    OnParentAt(env.digest, c, 5);
    OnGenesisAt(env.digest, c, 4);
    assert ApartAt(c, 0, 3);
    LocksOnly(env, s, c[6], c[5], c[4], c[0]);
  }

  /** Update on a block over two certified blocks that are not part of a three-chain: the lock moves to the lower
      one, and the block, which justifies a block above the new lock, is accepted if it is high enough. */
  lemma LocksOnly(env: Env, s: Core, block: Block, block2: Block, block1: Block, lock: Block)
    requires JustifyBlock(s, block) == Some(block2) && JustifyBlock(s, block2) == Some(block1)
    requires !ThreeChain(block2, block1) && LoadBlock(s, s.lockedQC.blockHash) == Some(lock)
    requires lock.height < block1.height < block2.height
    ensures Updated(s, block, Update(env, s, block), block2.justify.value.blockHash)
  {
    var s1 := UpdateHighestQC(env, s, block2, block.justify.value);
    assert s1 == s.(genericQC := s1.genericQC, events := s1.events);
    assert Update(env, s, block) == Outcome(s1.(lockedQC := block2.justify.value), true);
  }

  lemma RoamsLow(env: Env, c: seq<Block>, n: nat, s: Core, s1: Core)
    requires Planned(env.digest, c, PlanC()) && n <= 3 && Roams(c, n, s) && s1 == StoreBlock(s, c[n + 1])
    ensures c[n + 1].height == n + 1
    ensures Updated(s1, c[n + 1], Update(env, s1, c[n + 1]), c[0].selfQc.blockHash)
  {
    HasAllNext(c, n, s);
    OnGenesisAt(env.digest, c, n + 1);
    UpdateOnGenesis(env, c, n, s1);
  }

  lemma RoamsFour(env: Env, c: seq<Block>, s: Core, s1: Core)
    requires Planned(env.digest, c, PlanC()) && Roams(c, 4, s) && s1 == StoreBlock(s, c[5])
    ensures c[5].height == 5 && Updated(s1, c[5], Update(env, s1, c[5]), c[0].selfQc.blockHash)
  {
    HasAllNext(c, 4, s);
    OnParentAt(env.digest, c, 5);
    UpdateOnFour(env, c, s1);
  }

  lemma RoamsFive(env: Env, c: seq<Block>, s: Core, s1: Core)
    requires Planned(env.digest, c, PlanC()) && Roams(c, 5, s) && s1 == StoreBlock(s, c[6])
    ensures c[6].height == 6 && Updated(s1, c[6], Update(env, s1, c[6]), c[4].selfQc.blockHash)
  {
    HasAllNext(c, 5, s);
    OnParentAt(env.digest, c, 6);
    UpdateOnFive(env, c, s1);
  }

  lemma RoamOne(env: Env, c: seq<Block>, n: nat, s: Core)
    requires Planned(env.digest, c, PlanC()) && n <= 5 && Roams(c, n, s)
    ensures Roams(c, n + 1, OnReceiveProposal(env, Meant, s, Proposal(0, c[n + 1])).core)
  {
    if n <= 3 {
      RoamsLow(env, c, n, s, StoreBlock(s, c[n + 1]));
    } else if n == 4 {
      RoamsFour(env, c, s, StoreBlock(s, c[n + 1]));
    } else {
      RoamsFive(env, c, s, StoreBlock(s, c[n + 1]));
    }
    UpdatedMoves(env, c, n, s);
    MovesOn(env.digest, c, n, s, OnReceiveProposal(env, Meant, s, Proposal(0, c[n + 1])).core);
  }

  /** The tail of a three-chain above the last executed block is decided. */
  lemma TailIsDecided(env: Env, s: Core, block: Block, block0: Block)
    requires TallyRuns.Keyed(s) && s.execQC.blockHash in s.blockCache && Tail(s, block) == Some(block0)
    requires block0.height > ExecHeight(s) && GetBlockHash(env.digest, block0) == block0.selfQc.blockHash
    ensures block0 in Decided(Update(env, s, block).core.events)
  {
    UpdateWithTail(env, s, block);
    assert Walked(env, s, block0)[0] == block0;
  }

  lemma TailIsFour(env: Env, c: seq<Block>, s: Core)
    requires Planned(env.digest, c, PlanC()) && |c| == 8 && HasAll(c, 7, s)
    ensures Tail(s, c[7]) == Some(c[4])
  {
    OnParentAt(env.digest, c, 7);
    OnParentAt(env.digest, c, 6);
    OnParentAt(env.digest, c, 5);
  }

  /** Block 7 completes the three-chain on block 4. */
  lemma UpdateDecidesFour(env: Env, c: seq<Block>, s: Core, s1: Core)
    requires Planned(env.digest, c, PlanC()) && |c| == 8 && Roams(c, 6, s) && s1 == StoreBlock(s, c[7])
    ensures c[4] in Decided(Update(env, s1, c[7]).core.events)
  {
    OnGenesisAt(env.digest, c, 4);
    HasAllNext(c, 6, s);
    TailIsFour(env, c, s1);
    TailIsDecided(env, s1, c[7], c[4]);
  }

  lemma SevenDecides(env: Env, c: seq<Block>, s: Core)
    requires Planned(env.digest, c, PlanC()) && |c| == 8 && Roams(c, 6, s)
    ensures c[4] in Decided(OnReceiveProposal(env, Meant, s, Proposal(0, c[7])).core.events)
  {
    UpdateDecidesFour(env, c, s, StoreBlock(s, c[7]));
    ReceiveAfterUpdate(env, Meant, s, Proposal(0, c[7]));
  }

  /** Replica 0 has decided on the first chain; replicas 1 and 2 have blocks 1 to n of the second. */
  predicate Second(b: seq<Block>, c: seq<Block>, n: nat, s: System)
    requires n < |c| == 8 && |b| == 5
  {
    && s.cores.Keys == {0, 1, 2} && OnTree(c, n, s.tree)
    && b[1].selfQc.blockHash in s.tree && s.tree[b[1].selfQc.blockHash] == NodeOf(b[1])
    && Caught(b, 4, s.cores[0]) && Roams(c, n, s.cores[1]) && Roams(c, n, s.cores[2])
  }

  lemma SecondStarts(u: Setup, b: seq<Block>, c: seq<Block>, s: System)
    requires Ready(u) && Forked(u.digest, b, PlanB(), c, PlanC()) && FirstDone(b, s)
    ensures Second(b, c, 0, s)
  {
    OtherTree(u.digest, b, PlanB(), c, PlanC(), 4, s.tree);
  }

  lemma SecondCertifiable(u: Setup, b: seq<Block>, c: seq<Block>, n: nat, s: System)
    requires Ready(u) && |b| == 5 && |c| == 8 && n <= 6 && Second(b, c, n, s)
    ensures Certifiable(u, s, c, PlanC(), n)
  {
    if n >= 4 {
      assert |{1, 2, 3}| == 3;
      SignedByTwo(u, s, 1, 2, c[n].selfQc.blockHash);
    }
  }

  lemma SendToOne(u: Setup, b: seq<Block>, c: seq<Block>, n: nat, run: seq<Action>, s: System)
      returns (longer: seq<Action>, t: System)
    requires Ready(u) && Planned(u.digest, c, PlanC()) && |b| == 5 && n <= 6 && Second(b, c, n, s)
    requires Exec(u, Meant, run) == Some(s)
    ensures Exec(u, Meant, longer) == Some(t) && Sent(u, Meant, s, 1, c[n + 1], t) && OnTree(c, n + 1, t.tree)
    ensures Certifiable(u, t, c, PlanC(), n)
  {
    SecondCertifiable(u, b, c, n, s);
    longer, t := SendNext(u, Meant, c, PlanC(), n, run, s, 1);
  }

  lemma SendToTwo(u: Setup, c: seq<Block>, n: nat, run: seq<Action>, s: System) returns (longer: seq<Action>, t: System)
    requires Ready(u) && Planned(u.digest, c, PlanC()) && n <= 5 && Exec(u, Meant, run) == Some(s) && 2 in s.cores
    requires OnTree(c, n + 1, s.tree) && Certifiable(u, s, c, PlanC(), n) && Roams(c, n, s.cores[2])
    ensures Exec(u, Meant, longer) == Some(t) && t.tree == s.tree
    ensures 2 in t.cores && t.cores == s.cores[2 := t.cores[2]] && Roams(c, n + 1, t.cores[2])
  {
    longer, t := SendNext(u, Meant, c, PlanC(), n, run, s, 2);
    RoamOne(EnvOf(u, 2), c, n, s.cores[2]);
    assert t.tree == s.tree;
  }

  lemma SecondStep(u: Setup, b: seq<Block>, c: seq<Block>, n: nat, run: seq<Action>, s: System)
      returns (longer: seq<Action>, x: System)
    requires Ready(u) && Forked(u.digest, b, PlanB(), c, PlanC()) && n <= 5 && Second(b, c, n, s)
    requires Exec(u, Meant, run) == Some(s)
    ensures Exec(u, Meant, longer) == Some(x) && Second(b, c, n + 1, x)
  {
    ChainsApart(u.digest, b, c, n + 1);
    var middle, t := SendToOne(u, b, c, n, run, s);
    RoamOne(EnvOf(u, 1), c, n, s.cores[1]);
    longer, x := SendToTwo(u, c, n, middle, t);
    SecondMoves(b, c, n, s, t.cores[1], x.cores[2], x);
  }

  lemma SecondMoves(b: seq<Block>, c: seq<Block>, n: nat, s: System, d: Core, e: Core, x: System)
    requires n + 1 < |c| == 8 && |b| == 5 && Second(b, c, n, s) && x.cores == s.cores[1 := d][2 := e]
    requires x.tree == s.tree[c[n + 1].selfQc.blockHash := NodeOf(c[n + 1])] && OnTree(c, n + 1, x.tree)
    requires b[1].selfQc.blockHash != c[n + 1].selfQc.blockHash && Roams(c, n + 1, d) && Roams(c, n + 1, e)
    ensures Second(b, c, n + 1, x)
  {
  }

  lemma ChainsApart(digest: Bytes -> Hash, b: seq<Block>, c: seq<Block>, n: nat)
    requires Forked(digest, b, PlanB(), c, PlanC()) && 1 <= n < |c|
    ensures b[1].selfQc.blockHash != c[n].selfQc.blockHash
  {
  }

  lemma NothingSecond(u: Setup, b: seq<Block>, c: seq<Block>) returns (run: seq<Action>, s: System)
    requires Ready(u) && Forked(u.digest, b, PlanB(), c, PlanC()) && Linear(EnvOf(u, 0), b)
    ensures Exec(u, Meant, run) == Some(s) && Second(b, c, 0, s)
  {
    run, s := FirstChain(u, b);
    SecondStarts(u, b, c, s);
  }

  lemma {:induction false} SecondChain(u: Setup, b: seq<Block>, c: seq<Block>, n: nat) returns (run: seq<Action>, s: System)
    requires Ready(u) && Forked(u.digest, b, PlanB(), c, PlanC()) && Linear(EnvOf(u, 0), b) && n <= 6
    ensures Exec(u, Meant, run) == Some(s) && Second(b, c, n, s)
  {
    if n == 0 {
      run, s := NothingSecond(u, b, c);
    } else {
      var m: nat := n - 1;
      var before, t := SecondChain(u, b, c, m);
      run, s := SecondStep(u, b, c, m, before, t);
    }
  }

  lemma {:induction false} ChainWalk(digest: Bytes -> Hash, chain: seq<Block>, plan: seq<Basis>, t: Tree, i: nat, k: nat)
    requires Planned(digest, chain, plan) && k <= i < |chain| && OnTree(chain, i, t)
    ensures Walk(t, chain[i].selfQc.blockHash, k) == chain[i - k].selfQc.blockHash
  {
    if k > 0 {
      assert PlannedAt(digest, chain, plan, i) && chain[i].selfQc.blockHash in t;
      ChainWalk(digest, chain, plan, t, i - 1, k - 1);
    }
  }

  lemma Apart(u: Setup, b: seq<Block>, c: seq<Block>, s: System, x: Block, y: Block)
    requires Forked(u.digest, b, PlanB(), c, PlanC()) && OnTree(c, 4, s.tree)
    requires x.selfQc.blockHash == b[1].selfQc.blockHash && y.selfQc.blockHash == c[4].selfQc.blockHash
    requires b[1].selfQc.blockHash in s.tree && s.tree[b[1].selfQc.blockHash] == NodeOf(b[1])
    ensures !OnOneBranch(s.tree, x, y) && b[1].height == 1 && c[4].height == 4
  {
    assert PlannedAt(u.digest, b, PlanB(), 1) && PlannedAt(u.digest, c, PlanC(), 4);
    assert c[4].selfQc.blockHash in s.tree;
    ChainWalk(u.digest, c, PlanC(), s.tree, 4, 3);
  }

  /** With every vote obeying the vote rule, and one message lost, two honest replicas decide blocks that are
      not on one branch. */
  lemma LostBlockDisagrees(u: Setup, b: seq<Block>, c: seq<Block>)
      returns (run: seq<Action>, s: System, x: Block, y: Block)
    requires Ready(u) && Forked(u.digest, b, PlanB(), c, PlanC())
    ensures Exec(u, Meant, run) == Some(s)
    ensures Decides(s, 0, x) && Decides(s, 1, y) && !OnOneBranch(s.tree, x, y)
    ensures x == b[1] && x.height == 1 && y == c[4] && y.height == 4
  {
    PlannedIsLinear(u, b, PlanB());
    var before, t := SecondChain(u, b, c, 6);
    run, s := SendToOne(u, b, c, 6, before, t);
    SevenDecides(EnvOf(u, 1), c, t.cores[1]);
    x, y := b[1], c[4];
    assert b[1..2] == [x];
    DecidedIsNotified(s.cores[0].events, x);
    DecidedIsNotified(s.cores[1].events, y);
    Apart(u, b, c, s, x, y);
  }

  /** There is such a run. */
  lemma AgreementFailsWithoutLock() returns (u: Setup, run: seq<Action>, s: System, x: Block, y: Block)
    ensures Sound(u) && Exec(u, Meant, run) == Some(s)
    ensures Decides(s, 0, x) && Decides(s, 1, y) && !OnOneBranch(s.tree, x, y)
    ensures x.height == 1 && y.height == 4
  {
    u := Four(Verbatim());
    FourIsSound(Verbatim());
    var b, c := ForkExists(PlanB(), PlanC());
    run, s, x, y := LostBlockDisagrees(u, b, c);
  }
}
