/** What the heights of a replica's certificates obey, whoever signs what and whatever the vote rule:
    nothing here depends on quorums, on the honesty of anybody, or on a signature being real. */
module Heights {
  import opened Types
  import opened Entity
  import opened Replica
  import opened BlockTree

  // ---------------------------------------------------------------------------
  // The tree

  /** A block other than genesis justifies its parent or an ancestor of its parent. */
  predicate BuiltAt(t: Tree, g: Hash, h: Hash) {
    && h in t
    && (h != g ==> t[h].parent in t && t[h].justify.Some? && Extends(t, t[h].parent, t[h].justify.value))
  }

  predicate Grounded(t: Tree, g: Hash) {
    && Linked(t, g) && t[g].justify.None?
    && forall h {:trigger BuiltAt(t, g, h)} :: h in t ==> BuiltAt(t, g, h)
  }

  /** The place a new block takes: one above its parent, justified by the parent or an ancestor of it, and
      without a clash with a block of the same hash. */
  predicate FitsAt(t: Tree, g: Hash, h: Hash, n: Node) {
    && h != g && (h in t ==> t[h] == n)
    && n.parent in t && n.height == t[n.parent].height + 1
    && n.justify.Some? && Extends(t, n.parent, n.justify.value)
  }

  lemma GroundedGrows(t: Tree, g: Hash, h: Hash, n: Node)
    requires Grounded(t, g) && FitsAt(t, g, h, n)
    ensures Grounded(t[h := n], g) && Subtree(t, t[h := n])
  {
    var v := t[h := n];
    LinkedGrows(t, g, h, n);
    forall x | x in v
      ensures BuiltAt(v, g, x)
    {
      if x in t && x != g {
        assert BuiltAt(t, g, x);
        ExtendsGrows(t, v, g, t[x].parent, t[x].justify.value);
      } else if x != g {
        ExtendsGrows(t, v, g, n.parent, n.justify.value);
      }
    }
  }

  /** What a block of the tree calls for does not change when the tree grows. */
  lemma LockBoundGrows(t: Tree, v: Tree, g: Hash, h: Hash)
    requires Grounded(t, g) && Subtree(t, v) && h in t
    ensures LockBound(v, h) == LockBound(t, h)
  {
    assert BuiltAt(t, g, h);
    if h != g {
      assert BuiltAt(t, g, t[h].justify.value);
    }
  }

  // ---------------------------------------------------------------------------
  // A replica

  /** The block filed under `h` is the block of the tree. */
  predicate FiledAt(t: Tree, c: Core, h: Hash) {
    && h in c.blockCache && h in t
    && c.blockCache[h].selfQc.blockHash == h && t[h] == NodeOf(c.blockCache[h])
  }

  predicate Filed(t: Tree, c: Core) {
    forall h {:trigger FiledAt(t, c, h)} :: h in c.blockCache ==> FiledAt(t, c, h)
  }

  function HeightOf(t: Tree, qc: QuorumCert): int {
    if qc.blockHash in t then t[qc.blockHash].height else 0
  }

  predicate Held(t: Tree, c: Core, qc: QuorumCert) {
    qc.blockHash in c.blockCache && qc.blockHash in t
  }

  /** The lock is strictly below the highest certificate unless it is still genesis, and the last
      executed block is never above the lock. */
  predicate CertOrder(t: Tree, g: Hash, c: Core) {
    && (c.lockedQC.blockHash == g || HeightOf(t, c.lockedQC) < HeightOf(t, c.genericQC))
    && HeightOf(t, c.execQC) <= HeightOf(t, c.lockedQC)
  }

  predicate Ordered(t: Tree, g: Hash, c: Core) {
    && Held(t, c, c.genericQC) && Held(t, c, c.lockedQC) && Held(t, c, c.execQC)
    && CertOrder(t, g, c)
  }

  predicate Placed(t: Tree, g: Hash, c: Core) {
    Filed(t, c) && Ordered(t, g, c)
  }

  /** The highest and the locked certificate do not fall. */
  predicate Rises(t: Tree, c: Core, d: Core) {
    && HeightOf(t, c.genericQC) <= HeightOf(t, d.genericQC)
    && HeightOf(t, c.lockedQC) <= HeightOf(t, d.lockedQC)
  }

  lemma PlacedGrows(t: Tree, v: Tree, g: Hash, c: Core)
    requires Subtree(t, v) && Placed(t, g, c)
    ensures Placed(v, g, c)
  {
    forall h | h in c.blockCache
      ensures FiledAt(v, c, h)
    {
      assert FiledAt(t, c, h);
    }
  }

  lemma SameFiles(t: Tree, c: Core, d: Core)
    requires Filed(t, c) && d.blockCache == c.blockCache
    ensures Filed(t, d)
  {
    forall h | h in d.blockCache
      ensures FiledAt(t, d, h)
    {
      assert FiledAt(t, c, h);
    }
  }

  lemma StorePlaces(t: Tree, g: Hash, c: Core, block: Block)
    requires Placed(t, g, c) && block.selfQc.blockHash in t && t[block.selfQc.blockHash] == NodeOf(block)
    ensures Placed(t, g, StoreBlock(c, block))
  {
    var d := StoreBlock(c, block);
    forall h | h in d.blockCache
      ensures FiledAt(t, d, h)
    {
      if h != block.selfQc.blockHash {
        assert FiledAt(t, c, h);
      }
    }
  }

  // ---------------------------------------------------------------------------
  // Certificates move up

  lemma HighestOrders(t: Tree, g: Hash, env: Env, c: Core, block: Block, qc: QuorumCert)
    requires Placed(t, g, c) && qc.blockHash in c.blockCache && block.height == HeightOf(t, qc)
    ensures var d := UpdateHighestQC(env, c, block, qc);
            Placed(t, g, d) && Rises(t, c, d) && (QcVerifies(env, qc) ==> block.height <= HeightOf(t, d.genericQC))
  {
    assert FiledAt(t, c, qc.blockHash) && FiledAt(t, c, c.genericQC.blockHash);
    SameFiles(t, c, UpdateHighestQC(env, c, block, qc));
  }

  lemma LockedOrders(t: Tree, g: Hash, c: Core, block: Block, qc: QuorumCert)
    requires Placed(t, g, c) && qc.blockHash in c.blockCache && block.height == HeightOf(t, qc)
    requires block.height < HeightOf(t, c.genericQC) || qc.blockHash == g
    ensures var d := UpdateLockedQC(c, block, qc);
            Placed(t, g, d) && Rises(t, c, d) && block.height <= HeightOf(t, d.lockedQC)
  {
    assert FiledAt(t, c, qc.blockHash) && FiledAt(t, c, c.lockedQC.blockHash);
    SameFiles(t, c, UpdateLockedQC(c, block, qc));
  }

  lemma DecideOrders(t: Tree, g: Hash, env: Env, c: Core, block1: Block, block0: Block)
    requires Placed(t, g, c) && block1.justify.Some? && Held(t, c, block1.justify.value)
    requires HeightOf(t, block1.justify.value) <= HeightOf(t, c.lockedQC)
    ensures Placed(t, g, Decide(env, c, block1, block0).core)
  {
    SameFiles(t, c, Decide(env, c, block1, block0).core);
  }

  /** The justify of the justify is at hand, so update gets as far as the lock. */
  predicate KnowsChain(c: Core, block: Block) {
    match JustifyBlock(c, block)
    case None => true
    case Some(block2) => block2.justify.Some? ==> JustifyBlock(c, block2).Some?
  }

  /** After update with the block, the lock is as high as a vote for the block calls for. */
  predicate LockReady(t: Tree, c: Core, block: Block) {
    KnowsChain(c, block) || LockBound(t, block.selfQc.blockHash) <= HeightOf(t, c.lockedQC)
  }

  /** A block of the tree other than genesis. */
  predicate Stands(t: Tree, g: Hash, block: Block) {
    block.selfQc.blockHash in t && t[block.selfQc.blockHash] == NodeOf(block) && block.selfQc.blockHash != g
  }

  /** A block that may be handed to update: its certificate verifies or is no news. */
  predicate Admissible(t: Tree, g: Hash, env: Env, c: Core, block: Block) {
    && Stands(t, g, block) && block.justify.Some?
    && (QcVerifies(env, block.justify.value) || HeightOf(t, block.justify.value) <= HeightOf(t, c.genericQC))
  }

  lemma JustifyIsLower(t: Tree, g: Hash, c: Core, h: Hash, j: Hash)
    requires Grounded(t, g) && Filed(t, c) && h in t && h != g && t[h].justify == Some(j) && j in c.blockCache
    ensures FiledAt(t, c, j) && t[j].height < t[h].height
  {
    assert BuiltAt(t, g, h) && LinkedAt(t, g, h) && FiledAt(t, c, j);
  }

  /** update keeps the order of the certificates, moves neither the highest nor the locked one down, and
      leaves the lock where the block calls for exactly if it can or it was there. */
  lemma UpdateOrders(t: Tree, g: Hash, env: Env, c: Core, block: Block)
    requires Grounded(t, g) && Placed(t, g, c) && Admissible(t, g, env, c, block)
    ensures var o := Update(env, c, block);
            && Placed(t, g, o.core) && Rises(t, c, o.core)
            && (o.ok ==> (LockBound(t, block.selfQc.blockHash) <= HeightOf(t, o.core.lockedQC) <==> LockReady(t, c, block)))
  {
    var h, j2 := block.selfQc.blockHash, block.justify.value.blockHash;
    if j2 in c.blockCache {
      var block2 := c.blockCache[j2];
      JustifyIsLower(t, g, c, h, j2);
      HighestOrders(t, g, env, c, block2, block.justify.value);
      var s1 := UpdateHighestQC(env, c, block2, block.justify.value);
      assert LinkedAt(t, g, s1.lockedQC.blockHash);
      if block2.justify.Some? && block2.justify.value.blockHash in c.blockCache {
        UpdateOrdersFromLock(t, g, env, s1, h, block2);
      }
    }
  }

  /** The same for the part of update after the pre-commit phase. */
  lemma UpdateOrdersFromLock(t: Tree, g: Hash, env: Env, s1: Core, h: Hash, block2: Block)
    requires Grounded(t, g) && Placed(t, g, s1)
    requires block2.selfQc.blockHash in s1.blockCache && s1.blockCache[block2.selfQc.blockHash] == block2
    requires h in t && h != g && t[h].justify == Some(block2.selfQc.blockHash)
    requires block2.height <= HeightOf(t, s1.genericQC)
    requires block2.justify.Some? && block2.justify.value.blockHash in s1.blockCache
    ensures var block1 := s1.blockCache[block2.justify.value.blockHash];
            var s2 := UpdateLockedQC(s1, block1, block2.justify.value);
            && Placed(t, g, s2) && Rises(t, s1, s2) && LockBound(t, h) <= HeightOf(t, s2.lockedQC)
            && (JustifyBlock(s2, block1).Some? ==>
                  Placed(t, g, Decide(env, s2, block1, JustifyBlock(s2, block1).value).core))
  {
    var j2, j1 := block2.selfQc.blockHash, block2.justify.value.blockHash;
    var block1 := s1.blockCache[j1];
    JustifyIsLower(t, g, s1, h, j2);
    JustifyIsLower(t, g, s1, j2, j1);
    LockedOrders(t, g, s1, block1, block2.justify.value);
    var s2 := UpdateLockedQC(s1, block1, block2.justify.value);
    if JustifyBlock(s2, block1).Some? {
      JustifyIsLower(t, g, s2, j1, block1.justify.value.blockHash);
      DecideOrders(t, g, env, s2, block1, JustifyBlock(s2, block1).value);
    }
  }

  // ---------------------------------------------------------------------------
  // The handlers

  lemma AbsorbOrders(t: Tree, g: Hash, env: Env, c: Core, block: Block)
    requires Grounded(t, g) && Placed(t, g, c) && Admissible(t, g, env, c, block)
    ensures var o := Absorb(env, c, block);
            && Placed(t, g, o.core) && Rises(t, c, o.core)
            && (o.ok ==> (LockBound(t, block.selfQc.blockHash) <= HeightOf(t, o.core.lockedQC) <==>
                            LockReady(t, StoreBlock(c, block), block)))
  {
    StorePlaces(t, g, c, block);
    UpdateOrders(t, g, env, StoreBlock(c, block), block);
  }

  lemma ReceiveOrders(t: Tree, g: Hash, env: Env, rule: VoteRule, c: Core, prop: Proposal)
    requires Grounded(t, g) && Placed(t, g, c) && Admissible(t, g, env, c, prop.block)
    ensures var d := OnReceiveProposal(env, rule, c, prop).core; Placed(t, g, d) && Rises(t, c, d)
  {
    AbsorbOrders(t, g, env, c, prop.block);
    SameFiles(t, Absorb(env, c, prop.block).core, OnReceiveProposal(env, rule, c, prop).core);
  }

  lemma TallyPlaces(t: Tree, g: Hash, c: Core, vote: Vote)
    requires Placed(t, g, c) && vote.blockHash in c.blockCache
    ensures Placed(t, g, Tally(c, vote)) && Rises(t, c, Tally(c, vote))
  {
    var d := Tally(c, vote);
    forall h | h in d.blockCache
      ensures FiledAt(t, d, h)
    {
      assert FiledAt(t, c, h);
    }
  }

  lemma VoteOrders(t: Tree, g: Hash, env: Env, c: Core, vote: Vote)
    requires Placed(t, g, c)
    ensures var d := OnProposalVote(env, c, vote).core; Placed(t, g, d) && Rises(t, c, d)
  {
    var d := OnProposalVote(env, c, vote).core;
    if vote.blockHash in c.blockCache && d.blockCache != c.blockCache {
      TallyPlaces(t, g, c, vote);
      var s1 := Tally(c, vote);
      var block := s1.blockCache[vote.blockHash];
      assert FiledAt(t, s1, vote.blockHash);
      HighestOrders(t, g, env, s1, block, block.selfQc);
      SameFiles(t, s1, d);
    } else {
      SameFiles(t, c, d);
    }
  }

  /** Storing, updating with and voting for a leaf on the highest certificate. */
  lemma ProposeOrders(t: Tree, g: Hash, env: Env, c: Core, curView: int, block: Block)
    requires Grounded(t, g) && Placed(t, g, c) && Stands(t, g, block) && block.justify == Some(c.genericQC)
    ensures var d := ProposeLeaf(env, c, curView, block).core; Placed(t, g, d) && Rises(t, c, d)
  {
    AbsorbOrders(t, g, env, c, block);
    var u := Update(env, StoreBlock(c, block), block);
    if u.ok {
      SelfVoteOrders(t, g, env, u.core, curView, block);
    }
  }

  lemma SelfVoteOrders(t: Tree, g: Hash, env: Env, c: Core, curView: int, block: Block)
    requires Placed(t, g, c) && block.selfQc.blockHash in c.blockCache
    ensures var d := SelfVote(env, c, curView, block).core; Placed(t, g, d) && Rises(t, c, d)
  {
    var hash := block.selfQc.blockHash;
    var voted := Sign(c.(voteHeight := block.height), hash);
    SameFiles(t, c, voted);
    VoteOrders(t, g, env, voted, VoteProposal(env, curView, hash));
    SameFiles(t, OnProposalVote(env, voted, VoteProposal(env, curView, hash)).core, SelfVote(env, c, curView, block).core);
  }

  /** Updating with a block that justifies the highest certificate leaves that certificate in place. */
  lemma GenericUnmoved(env: Env, c: Core, block: Block)
    requires c.genericQC.blockHash in c.blockCache && block.justify == Some(c.genericQC)
    ensures Update(env, c, block).core.genericQC == c.genericQC
  {
  }
}
