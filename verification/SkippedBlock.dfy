/** Runs that break the order of decisions: a block that is lost is skipped, and a block received again moves
    execQC back, after which blocks are decided a second time. */
module SkippedBlock {
  import opened Types
  import opened Replica
  import opened TallyRuns
  import opened DecideRuns

  // ---------------------------------------------------------------------------
  // A lost block

  /** Blocks 2 to n of the chain have arrived and block 1 has not. */
  predicate AllButFirst(chain: seq<Block>, n: nat, s: Core)
    requires 1 <= n < |chain|
  {
    && Keyed(s) && chain[1].selfQc.blockHash !in s.blockCache
    && (forall i :: 0 <= i <= n && i != 1 ==>
          chain[i].selfQc.blockHash in s.blockCache && s.blockCache[chain[i].selfQc.blockHash] == chain[i])
  }

  /** In addition nothing is decided. */
  predicate Skipped(chain: seq<Block>, n: nat, s: Core)
    requires 1 <= n < |chain|
  {
    && AllButFirst(chain, n, s)
    && s.execQC.blockHash == chain[0].selfQc.blockHash && Decided(s.events) == []
  }

  lemma SkipHasNoTail(env: Env, chain: seq<Block>, n: nat, s: Core)
    requires Linear(env, chain) && 2 <= n <= 4 && n < |chain| && Skipped(chain, n, s)
    ensures Tail(s, chain[n]).None?
  {
    assert LinkedTo(env, chain, n) && LinkedTo(env, chain, n - 1);
    if n == 4 { assert LinkedTo(env, chain, 2); }
  }

  lemma SkipOn(env: Env, rule: VoteRule, chain: seq<Block>, n: nat, s: Core, view: int)
    requires Linear(env, chain) && 1 <= n <= 3 && n + 1 < |chain| && Skipped(chain, n, s)
    ensures Skipped(chain, n + 1, OnReceiveProposal(env, rule, s, Proposal(view, chain[n + 1])).core)
  {
    var s1, prop := StoreBlock(s, chain[n + 1]), Proposal(view, chain[n + 1]);
    OwnHash(chain, n + 1);
    assert Skipped(chain, n + 1, s1);
    SkipHasNoTail(env, chain, n + 1, s1);
    UpdateWithoutTail(env, s1, chain[n + 1]);
    ReceiveAfterUpdate(env, rule, s, prop);
    ReceiveStores(env, rule, s, prop);
  }

  lemma {:induction false} SkipTo(env: Env, rule: VoteRule, chain: seq<Block>, views: seq<int>, n: nat)
    requires Linear(env, chain) && |views| == |chain| && 1 <= n <= 4 && n < |chain|
    ensures Skipped(chain, n, Run(env, rule, Initial(env), Receiving(chain, views, n)[1..]))
  {
    var ops := Receiving(chain, views, n)[1..];
    if n == 1 {
      OwnHash(chain, 1);
    } else {
      assert ops[..|ops| - 1] == Receiving(chain, views, n - 1)[1..];
      SkipTo(env, rule, chain, views, n - 1);
      SkipOn(env, rule, chain, n - 1, Run(env, rule, Initial(env), Receiving(chain, views, n - 1)[1..]), views[n]);
    }
  }

  /** The loop that finds block 2 and misses block 1. */
  lemma SkipDecides(env: Env, chain: seq<Block>, s: Core)
    requires Linear(env, chain) && 5 < |chain| && Skipped(chain, 5, s)
    ensures Tail(s, chain[5]) == Some(chain[2]) && Walked(env, s, chain[2]) == [chain[2]]
  {
    assert LinkedTo(env, chain, 5) && LinkedTo(env, chain, 4) && LinkedTo(env, chain, 3);
    assert LinkedTo(env, chain, 2) && LinkedTo(env, chain, 0);
    assert DecidedBlocks(s.blockCache, chain[1].selfQc.blockHash, 1) == ([], false);
  }

  lemma FifthSkips(env: Env, rule: VoteRule, chain: seq<Block>, s: Core, view: int)
    requires Linear(env, chain) && 5 < |chain| && Skipped(chain, 4, s)
    ensures var t := OnReceiveProposal(env, rule, s, Proposal(view, chain[5])).core;
            && Decided(t.events) == [chain[2]] && t.execQC.blockHash == chain[2].selfQc.blockHash
            && AllButFirst(chain, 5, t)
  {
    var s1, prop := StoreBlock(s, chain[5]), Proposal(view, chain[5]);
    OwnHash(chain, 5);
    assert Skipped(chain, 5, s1);
    SkipDecides(env, chain, s1);
    UpdateWithTail(env, s1, chain[5]);
    ReceiveAfterUpdate(env, rule, s, prop);
    ReceiveStores(env, rule, s, prop);
  }

  /** A replica that receives blocks 2 to 5 of a chain, but not block 1, decides block 2 and leaves execQC there:
      block 1 is skipped. */
  lemma LostBlockIsSkipped(env: Env, rule: VoteRule, chain: seq<Block>, views: seq<int>)
    requires Linear(env, chain) && |views| == |chain| && 5 < |chain|
    ensures var s := Run(env, rule, Initial(env), Receiving(chain, views, 5)[1..]);
            && Decided(s.events) == [chain[2]] && s.execQC.blockHash == chain[2].selfQc.blockHash
            && AllButFirst(chain, 5, s)
  {
    var ops := Receiving(chain, views, 4)[1..];
    SkipTo(env, rule, chain, views, 4);
    assert Receiving(chain, views, 5)[1..] == ops + [ReceiveOp(Proposal(views[5], chain[5]))];
    RunMore(env, rule, Initial(env), ops, ReceiveOp(Proposal(views[5], chain[5])));
    FifthSkips(env, rule, chain, Run(env, rule, Initial(env), ops), views[5]);
  }

  // ---------------------------------------------------------------------------
  // Blocks received again

  /** Storing a block of the chain that is there already changes nothing. */
  lemma StoredAlready(chain: seq<Block>, n: nat, k: nat, s: Core)
    requires k <= n < |chain| && HasAll(chain, n, s)
    ensures StoreBlock(s, chain[k]) == s
  {
    assert s.blockCache[chain[k].selfQc.blockHash := chain[k]] == s.blockCache;
  }

  /** Block 3 again: its three-chain ends at genesis, so execQC falls back there and nothing is decided. */
  lemma ThirdAgain(env: Env, rule: VoteRule, chain: seq<Block>, s: Core, view: int)
    requires Linear(env, chain) && 5 < |chain| && Keyed(s) && HasAll(chain, 5, s)
    requires s.execQC.blockHash == chain[2].selfQc.blockHash
    ensures var t := OnReceiveProposal(env, rule, s, Proposal(view, chain[3])).core;
            && Keyed(t) && HasAll(chain, 5, t) && t.execQC.blockHash == chain[0].selfQc.blockHash
            && Decided(t.events) == Decided(s.events)
  {
    StoredAlready(chain, 5, 3, s);
    FedTail(env, chain, 2, s);
    UpdateWithTail(env, s, chain[3]);
    assert LinkedTo(env, chain, 2) && LinkedTo(env, chain, 0);
    assert Walked(env, s, chain[0]) == [];
    ReceiveAfterUpdate(env, rule, s, Proposal(view, chain[3]));
    ReceiveStores(env, rule, s, Proposal(view, chain[3]));
  }

  lemma LoopOfTwo(store: map<Hash, Block>, hash: Hash)
    requires hash in store && store[hash].parentHash in store
    ensures DecidedBlocks(store, hash, 2).0 == [store[hash], store[store[hash].parentHash]]
  {
    var parent := store[store[hash].parentHash];
    assert DecidedBlocks(store, parent.parentHash, 0).0 == [];
    assert DecidedBlocks(store, store[hash].parentHash, 1).0 == [parent];
  }

  lemma WalkTwo(env: Env, chain: seq<Block>, s: Core)
    requires Linear(env, chain) && 5 < |chain| && HasAll(chain, 5, s)
    requires s.execQC.blockHash == chain[0].selfQc.blockHash
    ensures Walked(env, s, chain[2]) == [chain[2], chain[1]]
  {
    assert LinkedTo(env, chain, 2) && LinkedTo(env, chain, 0);
    LoopOfTwo(s.blockCache, chain[2].selfQc.blockHash);
  }

  /** Block 5 again, with execQC back at genesis: blocks 2 and 1 are decided. */
  lemma FifthAgain(env: Env, rule: VoteRule, chain: seq<Block>, s: Core, view: int)
    requires Linear(env, chain) && 5 < |chain| && Keyed(s) && HasAll(chain, 5, s)
    requires s.execQC.blockHash == chain[0].selfQc.blockHash
    ensures var t := OnReceiveProposal(env, rule, s, Proposal(view, chain[5])).core;
            && t.execQC.blockHash == chain[2].selfQc.blockHash
            && Decided(t.events) == Decided(s.events) + [chain[2], chain[1]]
  {
    StoredAlready(chain, 5, 5, s);
    FedTail(env, chain, 4, s);
    UpdateWithTail(env, s, chain[5]);
    WalkTwo(env, chain, s);
    ReceiveAfterUpdate(env, rule, s, Proposal(view, chain[5]));
  }

  /** The lost block arrives after all. */
  lemma FirstArrives(env: Env, rule: VoteRule, chain: seq<Block>, s: Core, view: int)
    requires Linear(env, chain) && 5 < |chain| && AllButFirst(chain, 5, s)
    requires s.execQC.blockHash == chain[2].selfQc.blockHash
    ensures var t := OnReceiveProposal(env, rule, s, Proposal(view, chain[1])).core;
            && Keyed(t) && HasAll(chain, 5, t) && t.execQC == s.execQC
            && Decided(t.events) == Decided(s.events)
  {
    var s1 := StoreBlock(s, chain[1]);
    OwnHash(chain, 1);
    FedTail(env, chain, 0, s1);
    UpdateWithoutTail(env, s1, chain[1]);
    ReceiveAfterUpdate(env, rule, s, Proposal(view, chain[1]));
    ReceiveStores(env, rule, s, Proposal(view, chain[1]));
  }

  function Again(chain: seq<Block>, views: seq<int>, k: nat): seq<Op>
    requires k < |chain| && |views| == |chain|
  {
    [ReceiveOp(Proposal(views[k], chain[k]))]
  }

  /** Blocks 3 and 5 again: execQC is back at genesis in between, and blocks 2 and 1 are decided, in that order and
      whether or not they were decided before. */
  lemma RepeatsDecideAgain(env: Env, rule: VoteRule, chain: seq<Block>, views: seq<int>, ops: seq<Op>)
    requires Linear(env, chain) && |views| == |chain| && 5 < |chain|
    requires var s := Run(env, rule, Initial(env), ops);
             Keyed(s) && HasAll(chain, 5, s) && s.execQC.blockHash == chain[2].selfQc.blockHash
    ensures var s, third := Run(env, rule, Initial(env), ops), ops + Again(chain, views, 3);
            && Run(env, rule, Initial(env), third).execQC.blockHash == chain[0].selfQc.blockHash
            && Decided(Run(env, rule, Initial(env), third + Again(chain, views, 5)).events) ==
               Decided(s.events) + [chain[2], chain[1]]
  {
    var s, third := Run(env, rule, Initial(env), ops), ops + Again(chain, views, 3);
    RunMore(env, rule, Initial(env), ops, Again(chain, views, 3)[0]);
    RunMore(env, rule, Initial(env), third, Again(chain, views, 5)[0]);
    ThirdAgain(env, rule, chain, s, views[3]);
    FifthAgain(env, rule, chain, Run(env, rule, Initial(env), third), views[5]);
  }

  /** The lost block is not skipped for good. It arrives late, blocks 3 and 5 are received again, and the replica has
      decided block 2 twice and block 1 after it. */
  lemma LateBlockIsDecided(env: Env, rule: VoteRule, chain: seq<Block>, views: seq<int>)
    requires Linear(env, chain) && |views| == |chain| && 5 < |chain|
    ensures var late := Receiving(chain, views, 5)[1..] + Again(chain, views, 1);
            var s := Run(env, rule, Initial(env), late + Again(chain, views, 3) + Again(chain, views, 5));
            Decided(s.events) == [chain[2], chain[2], chain[1]]
  {
    var ops := Receiving(chain, views, 5)[1..];
    LostBlockIsSkipped(env, rule, chain, views);
    RunMore(env, rule, Initial(env), ops, Again(chain, views, 1)[0]);
    FirstArrives(env, rule, chain, Run(env, rule, Initial(env), ops), views[1]);
    RepeatsDecideAgain(env, rule, chain, views, ops + Again(chain, views, 1));
  }

  lemma FirstTwo(chain: seq<Block>)
    requires 3 <= |chain|
    ensures chain[1..3] == [chain[1], chain[2]]
    ensures chain[1..3] + [chain[2], chain[1]] == [chain[1], chain[2], chain[2], chain[1]]
  {
  }

  /** Nothing is lost and all arrives in order, but a tail below execQC comes late: every block is decided twice. */
  lemma LateTailDecidesTwice(env: Env, rule: VoteRule, chain: seq<Block>, views: seq<int>)
    requires Linear(env, chain) && |views| == |chain| && 5 < |chain|
    ensures var s := Run(env, rule, Initial(env),
                         Receiving(chain, views, 5) + Again(chain, views, 3) + Again(chain, views, 5));
            Decided(s.events) == [chain[1], chain[2], chain[2], chain[1]]
  {
    HappyPath(env, rule, chain, views, 5);
    FirstTwo(chain);
    RepeatsDecideAgain(env, rule, chain, views, Receiving(chain, views, 5));
  }
}
