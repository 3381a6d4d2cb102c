/** What the vote rule computes, in terms of the tree. */
module SafeVotes {
  import opened Types
  import opened Replica
  import opened BlockTree
  import opened Heights

  /** A parent walk that finds all its blocks is a walk in the tree. */
  lemma {:induction false} WalkFollowsTree(t: Tree, g: Hash, c: Core, block: Block, n: nat)
    requires Linked(t, g) && Filed(t, c) && n <= block.height
    requires block.selfQc.blockHash in t && t[block.selfQc.blockHash] == NodeOf(block)
    ensures var x := ParentWalk(c.blockCache, block, n);
            x.Some? ==> x.value.selfQc.blockHash == Walk(t, block.selfQc.blockHash, n)
    decreases n
  {
    if n > 0 && block.parentHash in c.blockCache {
      assert LinkedAt(t, g, block.selfQc.blockHash) && FiledAt(t, c, block.parentHash);
      WalkFollowsTree(t, g, c, c.blockCache[block.parentHash], n - 1);
    }
  }

  /** When no block is missing on the way, the bounded parent walk arrives at the locked block
      exactly when that block is the proposed one or an ancestor of it, whatever the two heights. */
  lemma WalkFindsLockIffExtends(t: Tree, g: Hash, c: Core, block: Block, lock: Hash)
    requires Linked(t, g) && Filed(t, c) && lock in t
    requires block.selfQc.blockHash in t && t[block.selfQc.blockHash] == NodeOf(block)
    ensures var x := ParentWalk(c.blockCache, block, block.height - t[lock].height);
            x.Some? ==> (x.value.selfQc.blockHash == lock <==> Extends(t, block.selfQc.blockHash, lock))
  {
    assert LinkedAt(t, g, lock);
    var n := block.height - t[lock].height;
    if n >= 0 {
      WalkFollowsTree(t, g, c, block, n);
    }
  }

  predicate HasParent(c: Core, g: Hash, h: Hash) {
    h in c.blockCache && (h != g ==> c.blockCache[h].parentHash in c.blockCache)
  }

  /** A store that has the parent of each of its blocks. */
  predicate Closed(c: Core, g: Hash) {
    forall h {:trigger HasParent(c, g, h)} :: h in c.blockCache ==> HasParent(c, g, h)
  }

  lemma {:induction false} ClosedStoreWalks(t: Tree, g: Hash, c: Core, h: Hash, n: nat)
    requires Linked(t, g) && Filed(t, c) && Closed(c, g)
    requires h in c.blockCache && n <= c.blockCache[h].height
    ensures ParentWalk(c.blockCache, c.blockCache[h], n).Some?
    decreases n
  {
    if n > 0 {
      assert FiledAt(t, c, h) && LinkedAt(t, g, h) && HasParent(c, g, h);
      assert FiledAt(t, c, c.blockCache[h].parentHash);
      ClosedStoreWalks(t, g, c, c.blockCache[h].parentHash, n - 1);
    }
  }

  /** The verdict in terms of the tree: unless a block is missing, voteHeight is raised exactly for
      a block above it that is safe with respect to the lock. */
  lemma JudgeIsSafeNode(t: Tree, g: Hash, c: Core, block: Block)
    requires Linked(t, g) && Filed(t, c) && c.lockedQC.blockHash in c.blockCache
    requires block.selfQc.blockHash in t && t[block.selfQc.blockHash] == NodeOf(block)
    requires !Judge(c, block).Missing?
    ensures Judge(c, block).Raise? <==>
              block.height > c.voteHeight && block.justify.Some? &&
              SafeNode(t, block.selfQc.blockHash, c.lockedQC.blockHash)
  {
    var lock := c.lockedQC.blockHash;
    assert FiledAt(t, c, lock);
    if block.height > c.voteHeight && block.justify.Some? {
      assert FiledAt(t, c, block.justify.value.blockHash);
      WalkFindsLockIffExtends(t, g, c, block, lock);
    }
  }

  /** With a closed store nothing is missing: the rule accepts a stored block whose justify block is
      stored exactly when it is above voteHeight and safe. */
  lemma VoteRuleExact(t: Tree, g: Hash, c: Core, h: Hash)
    requires Linked(t, g) && Filed(t, c) && Closed(c, g) && c.lockedQC.blockHash in c.blockCache
    requires h in c.blockCache && JustifyBlock(c, c.blockCache[h]).Some?
    ensures Judge(c, c.blockCache[h]).Raise? <==>
              c.blockCache[h].height > c.voteHeight && SafeNode(t, h, c.lockedQC.blockHash)
  {
    var lock := c.lockedQC.blockHash;
    assert FiledAt(t, c, h) && FiledAt(t, c, lock) && LinkedAt(t, g, lock);
    var n := c.blockCache[h].height - t[lock].height;
    if n >= 0 {
      ClosedStoreWalks(t, g, c, h, n);
    }
    JudgeIsSafeNode(t, g, c, c.blockCache[h]);
  }

  /** The leader's own vote is not checked against the lock, yet it obeys the vote rule: the new block
      justifies the highest certificate, and the lock is below that or is still genesis. */
  lemma SelfVoteIsSafe(t: Tree, g: Hash, c: Core, h: Hash)
    requires Linked(t, g) && Ordered(t, g, c)
    requires h in t && t[h].justify == Some(c.genericQC.blockHash)
    ensures SafeNode(t, h, c.lockedQC.blockHash)
  {
    if c.lockedQC.blockHash == g {
      ExtendsGenesis(t, g, h);
    }
  }
}
