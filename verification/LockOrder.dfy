/** update verifies a certificate before it becomes genericQC, but not before a block becomes locked. What
    that does to the order of the two, exactly. */
module LockOrder {
  import opened Types
  import opened Entity
  import opened Replica
  import opened BlockTree
  import opened Heights
  import opened TallyRuns
  import opened DecideRuns
  import opened Progress

  lemma UpdateMoves(t: Tree, g: Hash, env: Env, c: Core, block: Block, block2: Block, block1: Block)
    requires Placed(t, g, c) && JustifyBlock(c, block) == Some(block2) && JustifyBlock(c, block2) == Some(block1)
    ensures var d := Update(env, c, block).core;
            && d.lockedQC == (if block1.height > HeightOf(t, c.lockedQC) then block2.justify.value else c.lockedQC)
            && d.genericQC == (if QcVerifies(env, block.justify.value) && block2.height > HeightOf(t, c.genericQC)
                               then block.justify.value else c.genericQC)
  {
    assert FiledAt(t, c, c.genericQC.blockHash) && FiledAt(t, c, c.lockedQC.blockHash);
  }

  /** Whatever the block's justify is worth: after update the lock is still below the highest certificate or
      genesis exactly when the justify verifies, or the block to be locked is below the highest certificate
      already, or it is genesis. */
  lemma LockOrderIff(t: Tree, g: Hash, env: Env, c: Core, block: Block)
    requires Grounded(t, g) && Placed(t, g, c) && Stands(t, g, block) && JustifyBlock(c, block).Some?
    requires JustifyBlock(c, JustifyBlock(c, block).value).Some?
    ensures var d := Update(env, c, block).core;
            var locked := JustifyBlock(c, block).value.justify.value;
            (d.lockedQC.blockHash == g || HeightOf(t, d.lockedQC) < HeightOf(t, d.genericQC)) <==>
              (QcVerifies(env, block.justify.value) || HeightOf(t, locked) < HeightOf(t, c.genericQC) || locked.blockHash == g)
  {
    var h, j2 := block.selfQc.blockHash, block.justify.value.blockHash;
    var block2 := c.blockCache[j2];
    var j1 := block2.justify.value.blockHash;
    JustifyIsLower(t, g, c, h, j2);
    JustifyIsLower(t, g, c, j2, j1);
    assert LinkedAt(t, g, j1) && LinkedAt(t, g, c.lockedQC.blockHash);
    UpdateMoves(t, g, env, c, block, block2, c.blockCache[j1]);
  }

  /** An unverified justify leaves the highest certificate alone. */
  lemma ForgedIsIgnored(env: Env, rule: VoteRule, s: Core, prop: Proposal)
    requires prop.block.justify.Some? && !QcVerifies(env, prop.block.justify.value)
    ensures OnReceiveProposal(env, rule, s, prop).core.genericQC == s.genericQC
  {
    var s1 := StoreBlock(s, prop.block);
    assert Update(env, s1, prop.block).core.genericQC == s1.genericQC;
  }

  lemma {:induction false} ForgedChainCaught(env: Env, rule: VoteRule, chain: seq<Block>, views: seq<int>, n: nat)
    requires Linear(env, chain) && |views| == |chain| && n < |chain|
    requires forall i :: 1 <= i < |chain| ==> chain[i].justify.Some? && !QcVerifies(env, chain[i].justify.value)
    ensures var s := Run(env, rule, Initial(env), Receiving(chain, views, n));
            s.genericQC == Initial(env).genericQC && Caught(chain, n, s)
  {
    if n > 0 {
      var before := Run(env, rule, Initial(env), Receiving(chain, views, n - 1));
      ForgedChainCaught(env, rule, chain, views, n - 1);
      CatchUp(env, rule, chain, n - 1, before, views[n]);
      ForgedIsIgnored(env, rule, before, Proposal(views[n], chain[n]));
      ReceivingNext(env, rule, chain, views, n - 1);
    }
  }

  lemma CaughtMeans(chain: seq<Block>, n: nat, s: Core)
    requires 3 <= n < |chain| && Caught(chain, n, s)
    ensures |s.signed| == n && s.lockedQC.blockHash == chain[n - 2].selfQc.blockHash
    ensures Decided(s.events) == chain[1..n - 2]
  {
  }

  /** The order fails, and more: a replica that receives n >= 3 blocks, each justifying its parent by a
      certificate that does not verify, votes for all of them, locks height n - 2 and decides heights 1 to
      n - 3, while its highest certificate is still genesis. */
  lemma ForgedChainLocks(env: Env, rule: VoteRule, chain: seq<Block>, views: seq<int>, n: nat)
    requires Linear(env, chain) && |views| == |chain| && 3 <= n < |chain|
    requires forall i :: 1 <= i < |chain| ==> chain[i].justify.Some? && !QcVerifies(env, chain[i].justify.value)
    ensures var s := Run(env, rule, Initial(env), Receiving(chain, views, n));
            && s.genericQC == Initial(env).genericQC && |s.signed| == n
            && s.lockedQC.blockHash == chain[n - 2].selfQc.blockHash && chain[n - 2].height == n - 2
            && Decided(s.events) == chain[1..n - 2]
  {
    ForgedChainCaught(env, rule, chain, views, n);
    CaughtMeans(chain, n, Run(env, rule, Initial(env), Receiving(chain, views, n)));
    assert LinkedTo(env, chain, n - 2);
  }
}
