/** When exactly the handlers of consensus/consensus.go return an error, and what they have done by then. */
module Errors {
  import opened Types
  import opened Quorum
  import opened Entity
  import opened Replica

  predicate Stored(c: Core, qc: Option<QuorumCert>) {
    qc.Some? && qc.value.blockHash in c.blockCache
  }

  function Justifies(c: Core, block: Block): Block
    requires Stored(c, block.justify)
  {
    c.blockCache[block.justify.value.blockHash]
  }

  /** The block ends a three-chain of stored blocks. */
  predicate HasTail(c: Core, block: Block) {
    && Stored(c, block.justify) && Stored(c, Justifies(c, block).justify)
    && var block2 := Justifies(c, block);
    && Stored(c, Justifies(c, block2).justify)
    && block2.parentHash == block2.justify.value.blockHash
    && Justifies(c, block2).parentHash == Justifies(c, block2).justify.value.blockHash
  }

  /** The first block of that chain. */
  function Tail(c: Core, block: Block): Block
    requires HasTail(c, block)
  {
    Justifies(c, Justifies(c, Justifies(c, block)))
  }

  predicate IsParent(store: map<Hash, Block>, blocks: seq<Block>, i: int)
    requires 0 < i < |blocks|
  {
    blocks[i - 1].parentHash in store && blocks[i] == store[blocks[i - 1].parentHash]
  }

  /** `blocks` are the stored blocks from `hash` on, each followed by its parent. */
  predicate Branch(store: map<Hash, Block>, hash: Hash, blocks: seq<Block>) {
    && (blocks != [] ==> hash in store && blocks[0] == store[hash])
    && (forall i :: 0 < i < |blocks| ==> IsParent(store, blocks, i))
  }

  lemma BranchGrows(store: map<Hash, Block>, hash: Hash, rest: seq<Block>)
    requires hash in store && Branch(store, store[hash].parentHash, rest)
    ensures Branch(store, hash, [store[hash]] + rest)
  {
    var blocks := [store[hash]] + rest;
    forall i | 0 < i < |blocks|
      ensures IsParent(store, blocks, i)
    {
      if i > 1 { assert IsParent(store, rest, i - 1); }
    }
  }

  /** The decide loop lists a branch; it fails exactly if that is shorter than asked for, and then the next block is
      missing. */
  lemma {:induction false} DecidedOkIff(store: map<Hash, Block>, hash: Hash, n: int)
    ensures var (blocks, ok) := DecidedBlocks(store, hash, n);
            && Branch(store, hash, blocks) && |blocks| <= (if n > 0 then n else 0)
            && (ok <==> |blocks| >= n)
            && (!ok ==> (if blocks == [] then hash else blocks[|blocks| - 1].parentHash) !in store)
    decreases n
  {
    if n > 0 && hash in store {
      DecidedOkIff(store, store[hash].parentHash, n - 1);
      BranchGrows(store, hash, DecidedBlocks(store, store[hash].parentHash, n - 1).0);
    }
  }

  ghost predicate HasBranch(store: map<Hash, Block>, hash: Hash, n: int) {
    exists blocks :: Branch(store, hash, blocks) && |blocks| == if n > 0 then n else 0
  }

  /** The last executed block is stored, and so are all that the decide phase has to go through. */
  ghost predicate Whole(env: Env, c: Core, block0: Block) {
    && c.execQC.blockHash in c.blockCache
    && HasBranch(c.blockCache, GetBlockHash(env.digest, block0), block0.height - c.blockCache[c.execQC.blockHash].height)
  }

  lemma {:induction false} SameBranch(store: map<Hash, Block>, hash: Hash, short: seq<Block>, long: seq<Block>, i: nat)
    requires Branch(store, hash, short) && Branch(store, hash, long) && i < |short| <= |long|
    ensures short[i] == long[i]
  {
    if i > 0 {
      SameBranch(store, hash, short, long, i - 1);
      assert IsParent(store, short, i) && IsParent(store, long, i);
    }
  }

  /** A branch that stops at a missing block goes no further. */
  lemma BranchStops(store: map<Hash, Block>, hash: Hash, short: seq<Block>, long: seq<Block>)
    requires Branch(store, hash, short) && Branch(store, hash, long)
    requires (if short == [] then hash else short[|short| - 1].parentHash) !in store
    ensures |long| <= |short|
  {
    if short != [] && |short| <= |long| {
      SameBranch(store, hash, short, long, |short| - 1);
      assert |long| > |short| ==> IsParent(store, long, |short|);
    }
  }

  lemma LoopOkIff(store: map<Hash, Block>, hash: Hash, n: int)
    ensures DecidedBlocks(store, hash, n).1 <==> HasBranch(store, hash, n)
  {
    DecidedOkIff(store, hash, n);
    var (blocks, ok) := DecidedBlocks(store, hash, n);
    if HasBranch(store, hash, n) && !ok {
      var long :| Branch(store, hash, long) && |long| == if n > 0 then n else 0;
      BranchStops(store, hash, blocks, long);
    }
  }

  /** The decide phase fails exactly if the last executed block or one of those to be decided is not stored. */
  lemma DecideOkIff(env: Env, c: Core, block1: Block, block0: Block)
    requires block1.justify.Some?
    ensures Decide(env, c, block1, block0).ok <==> Whole(env, c, block0)
  {
    if c.execQC.blockHash in c.blockCache {
      LoopOkIff(c.blockCache, GetBlockHash(env.digest, block0), block0.height - c.blockCache[c.execQC.blockHash].height);
    }
  }

  /** Update fails exactly if the block's justify block is not stored, or it ends a three-chain whose decide phase
      fails. A missing justify block further down, or a chain that is not one, is no error. */
  lemma UpdateOkIff(env: Env, c: Core, block: Block)
    ensures Update(env, c, block).ok <==>
              Stored(c, block.justify) && (HasTail(c, block) ==> Whole(env, c, Tail(c, block)))
  {
    if HasTail(c, block) {
      var block2 := Justifies(c, block);
      var block1 := Justifies(c, block2);
      var s2 := UpdateLockedQC(UpdateHighestQC(env, c, block2, block.justify.value), block1, block2.justify.value);
      DecideOkIff(env, s2, block1, Tail(c, block));
      assert Whole(env, s2, Tail(c, block)) <==> Whole(env, c, Tail(c, block));
    }
  }

  /** Counting a vote fails exactly if its voter is recorded already in a tally still short of N - F, and a failure
      changes nothing. Neither a vote for an unknown block nor one too many is an error. */
  lemma VoteOkIff(env: Env, c: Core, vote: Vote)
    ensures var o := OnProposalVote(env, c, vote);
            && (o.ok <==> !(vote.blockHash in c.blockCache && vote.voter in c.blockCache[vote.blockHash].selfQc.signs &&
                            |c.blockCache[vote.blockHash].selfQc.signs| < env.metadata.n - env.metadata.f))
            && (!o.ok ==> o.core == c)
  {
  }

  /** The vote rule misses a block: the locked one, or one on the way down to its height. */
  predicate RuleMisses(c: Core, block: Block) {
    && block.height > c.voteHeight
    && (!Stored(c, block.justify) || c.lockedQC.blockHash !in c.blockCache ||
        (var lock := c.blockCache[c.lockedQC.blockHash];
         Justifies(c, block).height <= lock.height && ParentWalk(c.blockCache, block, block.height - lock.height).None?))
  }

  /** OnReceiveProposal fails exactly if update does on the stored block or the vote rule misses a block, and announces
      a vote exactly if it does not fail and, where the vote rule is obeyed, the rule accepts the block. */
  lemma ReceiveOkIff(env: Env, rule: VoteRule, c: Core, prop: Proposal)
    ensures var o, a := OnReceiveProposal(env, rule, c, prop), Update(env, StoreBlock(c, prop.block), prop.block);
            && (o.ok <==> a.ok && !RuleMisses(a.core, prop.block))
            && (o.core.events != a.core.events <==> o.ok && (rule.AsWritten? || Accepts(env, c, prop.block)))
  {
  }

  /** OnPropose fails exactly if the parent is unknown, its height is not below that of the last vote, or update fails
      on the new block. In the first two cases nothing has changed. */
  lemma ProposeOkIff(env: Env, c: Core, curView: int, parentHash: Hash, cmds: Bytes, timestamp: int)
    requires GetQuorumSize(env.metadata) > 0
    ensures var o, leaf := OnPropose(env, c, curView, parentHash, cmds, timestamp),
                           NewLeaf(env, c, curView, parentHash, cmds, timestamp);
            && (leaf.Some? <==> parentHash in c.blockCache && c.blockCache[parentHash].height >= c.voteHeight)
            && (leaf.None? ==> !o.ok && o.core == c)
            && (leaf.Some? ==> (o.ok <==> Update(env, StoreBlock(c, leaf.value), leaf.value).ok))
  {
    var leaf := NewLeaf(env, c, curView, parentHash, cmds, timestamp);
    if leaf.Some? {
      var block := leaf.value;
      var a := Update(env, StoreBlock(c, block), block).core;
      var hash := block.selfQc.blockHash;
      VoteOkIff(env, Sign(a.(voteHeight := block.height), hash), VoteProposal(env, curView, hash));
    }
  }
}
