/** The program sends its vote whether or not the vote rule accepted the block. Agreement then fails: a run
    of the program as written in which two honest replicas decide different blocks of one height. */
module DoubleVote {
  import opened Types
  import opened Quorum
  import opened Entity
  import opened Replica
  import opened BlockTree
  import opened World
  import opened System
  import opened DecideRuns
  import opened Progress
  import opened Fork

  /** Replicas 0 and 2 endorse one chain, replicas 1 and 2 the other; replica 3 is faulty and signs both. */
  function PlanB(): seq<Basis> {
    [OnGenesis, OnParent({0, 2, 3}), OnParent({0, 2, 3}), OnParent({0, 2, 3})]
  }

  function PlanC(): seq<Basis> {
    [OnGenesis, OnParent({1, 2, 3}), OnParent({1, 2, 3}), OnParent({1, 2, 3})]
  }

  ghost predicate Chains(u: Setup, b: seq<Block>, c: seq<Block>) {
    u == Four(u.digest) && Forked(u.digest, b, PlanB(), c, PlanC())
  }

  lemma FirstIsEndorsed(u: Setup, b: seq<Block>, c: seq<Block>)
    requires Chains(u, b, c)
    ensures Honest(u) == {0, 1, 2} && Endorsed(u, b, {0, 2})
  {
    FourIsSound(u.digest);
    assert |{0, 2, 3}| == 3;
    assert {0, 2} + {3} == {0, 2, 3};
    PlannedIsEndorsed(u, b, PlanB(), {0, 2});
  }

  /** Replicas 0 and 2 follow the first chain; replica 0 gets one block more and decides its first block. */
  lemma FirstChain(u: Setup, b: seq<Block>, c: seq<Block>) returns (run: seq<Action>, s: System)
    requires Chains(u, b, c)
    ensures Exec(u, AsWritten, run) == Some(s) && Round(u, b, {0, 2}, 4, {0}, s)
  {
    FirstIsEndorsed(u, b, c);
    run, s := Rounds(u, AsWritten, b, {0, 2}, 3);
    NextRound(u, b, {0, 2}, 4, s);
    var longer, t := DeliverNext(u, AsWritten, b, {0, 2}, 4, {}, run, s, 0);
    assert {} + {0} == {0};
    run, s := longer, t;
  }

  // ---------------------------------------------------------------------------
  // The second chain

  /** A replica that has voted up to height 3 elsewhere and has signed blocks 1 to n of this chain as well. */
  predicate Trails(c: seq<Block>, n: nat, s: Core)
    requires n < |c|
  {
    && HasAll(c, n, s) && s.execQC.blockHash == c[0].selfQc.blockHash && s.voteHeight >= 3
    && forall i :: 1 <= i <= n ==> HasBallot(s, c[i].selfQc.blockHash)
  }

  /** update on one of the first three blocks decides nothing and succeeds. */
  lemma UpdateLow(env: Env, c: seq<Block>, n: nat, s: Core)
    requires Linear(env, c) && n + 1 < |c| && n <= 2 && HasAll(c, n + 1, s)
    requires s.execQC.blockHash == c[0].selfQc.blockHash
    ensures Update(env, s, c[n + 1]).ok && Update(env, s, c[n + 1]).core.execQC.blockHash == c[0].selfQc.blockHash
  {
    assert LinkedTo(env, c, n + 1) && LinkedTo(env, c, n) && LinkedTo(env, c, 0);
    if n == 2 {
      assert LinkedTo(env, c, 1);
      DecideLow(env, s, c[3], c[2], c[1], c[0]);
    } else {
      UpdateUndecided(env, s, c[n + 1], c[n]);
    }
  }

  /** There is no chain of three blocks below. */
  lemma UpdateUndecided(env: Env, s: Core, block: Block, block2: Block)
    requires JustifyBlock(s, block) == Some(block2)
    requires JustifyBlock(s, block2).None? || JustifyBlock(s, block2).value.justify.None?
    ensures Update(env, s, block).ok && Update(env, s, block).core.execQC == s.execQC
  {
    var s1 := UpdateHighestQC(env, s, block2, block.justify.value);
    assert s1 == s.(genericQC := s1.genericQC, events := s1.events);
  }

  lemma DecideLow(env: Env, s: Core, block: Block, block2: Block, block1: Block, block0: Block)
    requires JustifyBlock(s, block) == Some(block2) && JustifyBlock(s, block2) == Some(block1)
    requires JustifyBlock(s, block1) == Some(block0)
    requires s.execQC.blockHash in s.blockCache && block0.height <= s.blockCache[s.execQC.blockHash].height
    ensures Update(env, s, block).ok
    ensures Update(env, s, block).core.execQC == if ThreeChain(block2, block1) then block1.justify.value else s.execQC
  {
    var s1 := UpdateHighestQC(env, s, block2, block.justify.value);
    assert s1 == s.(genericQC := s1.genericQC, events := s1.events);
  }

  /** The vote for a block that is not above voteHeight is sent all the same. */
  lemma SignsAnyway(env: Env, s: Core, prop: Proposal, o: Outcome)
    requires o == Update(env, StoreBlock(s, prop.block), prop.block) && o.ok && prop.block.height <= s.voteHeight
    ensures var d := OnReceiveProposal(env, AsWritten, s, prop).core;
            && d.blockCache == StoreBlock(s, prop.block).blockCache && d.voteHeight == s.voteHeight
            && d.execQC == o.core.execQC
            && s.signed <= d.signed && HasBallot(d, prop.block.selfQc.blockHash)
  {
  }

  lemma TrailOne(env: Env, c: seq<Block>, n: nat, s: Core)
    requires Linear(env, c) && n + 1 < |c| && n <= 2 && Trails(c, n, s)
    ensures Trails(c, n + 1, OnReceiveProposal(env, AsWritten, s, Proposal(0, c[n + 1])).core)
  {
    var s1, d := StoreBlock(s, c[n + 1]), OnReceiveProposal(env, AsWritten, s, Proposal(0, c[n + 1])).core;
    HasAllNext(c, n, s);
    UpdateLow(env, c, n, s1);
    assert LinkedTo(env, c, n + 1);
    SignsAnyway(env, s, Proposal(0, c[n + 1]), Update(env, s1, c[n + 1]));
    AllBallotsStay(c, n, s, d);
  }

  lemma AllBallotsStay(c: seq<Block>, n: nat, s: Core, d: Core)
    requires n < |c| && s.signed <= d.signed && forall i :: 1 <= i <= n ==> HasBallot(s, c[i].selfQc.blockHash)
    ensures forall i :: 1 <= i <= n ==> HasBallot(d, c[i].selfQc.blockHash)
  {
    forall i | 1 <= i <= n
      ensures HasBallot(d, c[i].selfQc.blockHash)
    {
      BallotsStay(s, d, c[i].selfQc.blockHash);
    }
  }

  /** Replica 0 has decided on the first chain; replicas 1 and 2 have blocks 1 to n of the second. */
  predicate Second(b: seq<Block>, c: seq<Block>, n: nat, s: System)
    requires n < |c| && |b| == 5
  {
    && s.cores.Keys == {0, 1, 2} && OnTree(c, n, s.tree)
    && b[1].selfQc.blockHash in s.tree && s.tree[b[1].selfQc.blockHash] == NodeOf(b[1])
    && Caught(b, 4, s.cores[0]) && Caught(c, n, s.cores[1]) && Trails(c, n, s.cores[2])
  }

  lemma SecondStarts(u: Setup, b: seq<Block>, c: seq<Block>, s: System)
    requires Chains(u, b, c) && Round(u, b, {0, 2}, 4, {0}, s)
    ensures Second(b, c, 0, s)
  {
    FirstIsEndorsed(u, b, c);
    OtherTree(u.digest, b, PlanB(), c, PlanC(), 4, s.tree);
    assert 0 in s.cores && 1 in s.cores && 2 in s.cores;
    Untouched(u, c, s.cores[1]);
    AfterFirst(b, c, s.cores[2]);
  }

  /** A replica that has received nothing yet. */
  lemma Untouched(u: Setup, c: seq<Block>, s: Core)
    requires c != [] && c[0] == Genesis(u.digest) && s == Initial(EnvOf(u, 1))
    ensures Caught(c, 0, s)
  {
  }

  /** A replica that has followed the first chain up to block 3. */
  lemma AfterFirst(b: seq<Block>, c: seq<Block>, s: Core)
    requires |b| == 5 && c != [] && c[0] == b[0] && Caught(b, 3, s)
    ensures Trails(c, 0, s)
  {
  }

  /** What the second chain's deliveries need of setup and chain. */
  predicate Ready(u: Setup, c: seq<Block>) {
    && Sound(u) && Honest(u) == {0, 1, 2} && u.replicas == {0, 1, 2, 3} && GetQuorumSize(u.metadata) == 3
    && Planned(u.digest, c, PlanC()) && Linear(EnvOf(u, 0), c)
  }

  lemma ChainsAreReady(u: Setup, b: seq<Block>, c: seq<Block>)
    requires Chains(u, b, c)
    ensures Ready(u, c)
  {
    FourIsSound(u.digest);
    PlannedIsLinear(u, c, PlanC());
  }

  lemma SecondSigned(u: Setup, b: seq<Block>, c: seq<Block>, n: nat, s: System)
    requires Ready(u, c) && |b| == 5 && 1 <= n < |c| && Second(b, c, n, s)
    ensures AllSigned(u, s, {1, 2, 3}, c[n].selfQc.blockHash)
  {
    assert s.cores[1].signed[n - 1].hash == c[n].selfQc.blockHash;
    BallotIsSigned(s, 1, c[n].selfQc.blockHash);
    BallotIsSigned(s, 2, c[n].selfQc.blockHash);
  }

  lemma SecondCertifiable(u: Setup, b: seq<Block>, c: seq<Block>, n: nat, s: System)
    requires Ready(u, c) && |b| == 5 && n + 1 < |c| && Second(b, c, n, s)
    ensures Certifiable(u, s, c, PlanC(), n)
  {
    assert |{1, 2, 3}| == 3;
    if n > 0 { SecondSigned(u, b, c, n, s); }
  }

  lemma SendToOne(u: Setup, b: seq<Block>, c: seq<Block>, n: nat, run: seq<Action>, s: System)
      returns (longer: seq<Action>, t: System)
    requires Ready(u, c) && |b| == 5 && n + 1 < |c| && Second(b, c, n, s) && Exec(u, AsWritten, run) == Some(s)
    ensures Exec(u, AsWritten, longer) == Some(t) && Sent(u, AsWritten, s, 1, c[n + 1], t) && OnTree(c, n + 1, t.tree)
    ensures Certifiable(u, t, c, PlanC(), n)
    ensures Caught(c, n + 1, t.cores[1])
  {
    SecondCertifiable(u, b, c, n, s);
    longer, t := SendNext(u, AsWritten, c, PlanC(), n, run, s, 1);
    LinearForAll(u, c, 1);
    CatchUp(EnvOf(u, 1), AsWritten, c, n, s.cores[1], 0);
  }

  lemma SecondStep(u: Setup, b: seq<Block>, c: seq<Block>, n: nat, run: seq<Action>, s: System)
      returns (longer: seq<Action>, x: System)
    requires Ready(u, c) && |b| == 5 && n <= 2 && Second(b, c, n, s) && Exec(u, AsWritten, run) == Some(s)
    requires b[1].selfQc.blockHash != c[n + 1].selfQc.blockHash
    ensures Exec(u, AsWritten, longer) == Some(x) && Second(b, c, n + 1, x)
  {
    var middle, t := SendToOne(u, b, c, n, run, s);
    longer, x := SendToTwo(u, c, n, middle, t);
    SecondMoves(b, c, n, s, t.cores[1], x.cores[2], x);
  }

  lemma SecondMoves(b: seq<Block>, c: seq<Block>, n: nat, s: System, d: Core, e: Core, x: System)
    requires n + 1 < |c| && |b| == 5 && Second(b, c, n, s) && x.cores == s.cores[1 := d][2 := e]
    requires x.tree == s.tree[c[n + 1].selfQc.blockHash := NodeOf(c[n + 1])] && OnTree(c, n + 1, x.tree)
    requires b[1].selfQc.blockHash != c[n + 1].selfQc.blockHash && Caught(c, n + 1, d) && Trails(c, n + 1, e)
    ensures Second(b, c, n + 1, x)
  {
  }

  lemma SendToTwo(u: Setup, c: seq<Block>, n: nat, run: seq<Action>, s: System)
      returns (longer: seq<Action>, t: System)
    requires Ready(u, c) && n <= 2 && Exec(u, AsWritten, run) == Some(s) && 2 in s.cores && Trails(c, n, s.cores[2])
    requires OnTree(c, n + 1, s.tree) && Certifiable(u, s, c, PlanC(), n)
    ensures Exec(u, AsWritten, longer) == Some(t) && t.tree == s.tree
    ensures 2 in t.cores && t.cores == s.cores[2 := t.cores[2]]
    ensures Trails(c, n + 1, t.cores[2])
  {
    longer, t := SendNext(u, AsWritten, c, PlanC(), n, run, s, 2);
    LinearForAll(u, c, 2);
    TrailOne(EnvOf(u, 2), c, n, s.cores[2]);
    assert t.tree == s.tree;
  }

  lemma {:induction false} SecondChain(u: Setup, b: seq<Block>, c: seq<Block>, n: nat) returns (run: seq<Action>, s: System)
    requires Chains(u, b, c) && Ready(u, c) && n <= 3
    ensures Exec(u, AsWritten, run) == Some(s) && Second(b, c, n, s)
  {
    if n == 0 {
      run, s := FirstChain(u, b, c);
      SecondStarts(u, b, c, s);
    } else {
      run, s := SecondChain(u, b, c, n - 1);
      run, s := SecondStep(u, b, c, n - 1, run, s);
    }
  }

  /** With the vote sent whatever the rule says, two honest replicas decide different blocks of height 1. */
  lemma StrayVotesDisagree(u: Setup, b: seq<Block>, c: seq<Block>)
      returns (run: seq<Action>, s: System, x: Block, y: Block)
    requires Chains(u, b, c)
    ensures Exec(u, AsWritten, run) == Some(s)
    ensures Decides(s, 0, x) && Decides(s, 1, y) && !OnOneBranch(s.tree, x, y)
    ensures x == b[1] && x.height == 1 && y == c[1] && y.height == 1
  {
    ChainsAreReady(u, b, c);
    var before, t := SecondChain(u, b, c, 3);
    run, s, x, y := LastBlock(u, b, c, before, t);
  }

  /** Block 4 of the second chain makes replica 1 decide. */
  lemma LastBlock(u: Setup, b: seq<Block>, c: seq<Block>, run: seq<Action>, s: System)
      returns (longer: seq<Action>, t: System, x: Block, y: Block)
    requires Chains(u, b, c) && Ready(u, c) && Exec(u, AsWritten, run) == Some(s) && Second(b, c, 3, s)
    ensures Exec(u, AsWritten, longer) == Some(t)
    ensures Decides(t, 0, x) && Decides(t, 1, y) && !OnOneBranch(t.tree, x, y)
    ensures x == b[1] && x.height == 1 && y == c[1] && y.height == 1
  {
    longer, t := SendToOne(u, b, c, 3, run, s);
    x, y := BothDecide(u, b, c, s, t);
  }

  lemma BothDecide(u: Setup, b: seq<Block>, c: seq<Block>, s: System, t: System) returns (x: Block, y: Block)
    requires Chains(u, b, c) && Second(b, c, 3, s) && Sent(u, AsWritten, s, 1, c[4], t)
    requires Caught(c, 4, t.cores[1]) && OnTree(c, 4, t.tree)
    ensures Decides(t, 0, x) && Decides(t, 1, y) && !OnOneBranch(t.tree, x, y)
    ensures x == b[1] && x.height == 1 && y == c[1] && y.height == 1
  {
    assert PlannedAt(u.digest, b, PlanB(), 1) && PlannedAt(u.digest, c, PlanC(), 1);
    x, y := b[1], c[1];
    FirstIsDecided(b, t.cores[0]);
    FirstIsDecided(c, t.cores[1]);
    assert c[1].selfQc.blockHash in t.tree;
    SameHeightApart(t.tree, x, y);
  }

  lemma FirstIsDecided(chain: seq<Block>, s: Core)
    requires |chain| == 5 && Caught(chain, 4, s)
    ensures DecideEvent(chain[1]) in s.events
  {
    assert chain[1..2] == [chain[1]];
    DecidedIsNotified(s.events, chain[1]);
  }

  /** There is such a run. */
  lemma AgreementFailsAsWritten() returns (u: Setup, run: seq<Action>, s: System, x: Block, y: Block)
    ensures Sound(u) && Exec(u, AsWritten, run) == Some(s)
    ensures Decides(s, 0, x) && Decides(s, 1, y) && !OnOneBranch(s.tree, x, y) && x.height == y.height == 1
  {
    u := Four(Verbatim());
    FourIsSound(Verbatim());
    var b, c := ForkExists(PlanB(), PlanC());
    run, s, x, y := StrayVotesDisagree(u, b, c);
  }
}
