/** consensus/consensus.go: the replica core as the object the program mutates. */
module HotStuff {
  import opened Types
  import opened Quorum
  import opened Entity
  import opened Replica

  class HotStuffCore {
    const env: Env
    const genesisBlock: Block
    var genericQC: QuorumCert
    var lockedQC: QuorumCert
    var execQC: QuorumCert
    var voteHeight: int
    var blockCache: map<Hash, Block>
    var voteSet: map<Hash, seq<Vote>>
    /** Everything sent on the notify channel so far. */
    var notified: seq<Event>
    ghost var signed: seq<Ballot>

    ghost function View(): Core
      reads this
    {
      Core(genericQC, lockedQC, execQC, voteHeight, blockCache, voteSet, notified, signed)
    }

    constructor (env: Env)
      ensures this.env == env && genesisBlock == Genesis(env.digest)
      ensures View() == Initial(env)
    {
      this.env := env;
      var genesis := Genesis(env.digest);
      genesisBlock := genesis;
      genericQC, lockedQC, execQC := genesis.selfQc, genesis.selfQc, genesis.selfQc;
      voteHeight, voteSet, notified, signed := 0, map[], [], [];
      blockCache := map[genesis.selfQc.blockHash := genesis];
    }

    method StoreBlock(block: Block)
      modifies this
      ensures View() == Replica.StoreBlock(old(View()), block)
    {
      blockCache := blockCache[block.selfQc.blockHash := block];
    }

    method LoadBlock(hash: Hash) returns (block: Option<Block>)
      ensures block == Replica.LoadBlock(View(), hash)
    {
      block := if hash in blockCache then Some(blockCache[hash]) else None;
    }

    method GetJustifyBlock(block: Block) returns (justified: Option<Block>)
      ensures justified == JustifyBlock(View(), block)
    {
      if block.justify.None? {
        return None;
      }
      justified := LoadBlock(block.justify.value.blockHash);
    }

    method Notify(event: Event)
      modifies this`notified
      ensures notified == old(notified) + [event]
    {
      notified := notified + [event];
    }

    method UpdateHighestQC(block: Block, qc: QuorumCert)
      modifies this
      ensures View() == Replica.UpdateHighestQC(env, old(View()), block, qc)
    {
      var verified := VerifyQuorumCert(env, Some(qc));
      if !verified {
        return;
      }
      var highBlock := LoadBlock(genericQC.blockHash);
      if highBlock.None? {
        return;
      }
      if block.height > highBlock.value.height {
        genericQC := qc;
        Notify(HqcUpdateEvent(qc));
      }
    }

    method UpdateLockedQC(block: Block, qc: QuorumCert)
      modifies this
      ensures View() == Replica.UpdateLockedQC(old(View()), block, qc)
    {
      var lockedBlock := LoadBlock(lockedQC.blockHash);
      if lockedBlock.None? {
        return;
      }
      if block.height > lockedBlock.value.height {
        lockedQC := qc;
      }
    }

    /** Notifies the blocks from `start` downwards, `n` of them, newest first. */
    method NotifyDecided(start: Hash, n: int) returns (ok: bool)
      modifies this`notified
      ensures var (blocks, found) := DecidedBlocks(blockCache, start, n);
              notified == old(notified) + DecideEvents(blocks) && ok == found
    {
      var i, blockHash := n, start;
      ghost var done: seq<Block> := [];
      while i > 0
        invariant notified == old(notified) + DecideEvents(done)
        invariant var (all, found) := DecidedBlocks(blockCache, start, n);
                  var (rest, left) := DecidedBlocks(blockCache, blockHash, i);
                  all == done + rest && found == left
      {
        var nblk := LoadBlock(blockHash);
        if nblk.None? {
          return false;
        }
        Notify(DecideEvent(nblk.value));
        ghost var before := done;
        done := done + [nblk.value];
        assert DecideEvents(done) == DecideEvents(before) + [DecideEvent(nblk.value)];
        blockHash := nblk.value.parentHash;
        i := i - 1;
      }
      return true;
    }

    method Update(block: Block) returns (ok: bool)
      modifies this
      ensures Outcome(View(), ok) == Replica.Update(env, old(View()), block)
    {
      var block2 := GetJustifyBlock(block);
      if block2.None? {
        return false;
      }
      UpdateHighestQC(block2.value, block.justify.value);

      var block1 := GetJustifyBlock(block2.value);
      if block1.None? {
        return true;
      }
      UpdateLockedQC(block1.value, block2.value.justify.value);

      var block0 := GetJustifyBlock(block1.value);
      if block0.None? {
        return true;
      }
      if block2.value.parentHash != block2.value.justify.value.blockHash ||
         block1.value.parentHash != block1.value.justify.value.blockHash {
        return true;
      }
      ok := DecidePhase(block1.value, block0.value);
    }

    method DecidePhase(block1: Block, block0: Block) returns (ok: bool)
      requires block1.justify.Some?
      modifies this
      ensures Outcome(View(), ok) == Decide(env, old(View()), block1, block0)
    {
      var execBlock := LoadBlock(execQC.blockHash);
      if execBlock.None? {
        return false;
      }
      execQC := block1.justify.value;
      var start := ComputeBlockHash(env.digest, block0);
      ok := NotifyDecided(start, block0.height - execBlock.value.height);
    }

    method AddVoteMsg(vote: Vote)
      modifies this
      ensures View() == Replica.AddVoteMsg(old(View()), vote)
    {
      if vote.blockHash in voteSet {
        voteSet := voteSet[vote.blockHash := voteSet[vote.blockHash] + [vote]];
      } else {
        voteSet := voteSet[vote.blockHash := [vote]];
        assert Parked(old(View()), vote.blockHash) + [vote] == [vote];
      }
    }

    /** Adds the parked votes for `hash` to `signs` and forgets them. */
    method TakeParked(hash: Hash, signs: map<ReplicaId, PartCert>) returns (r: map<ReplicaId, PartCert>)
      modifies this`voteSet
      ensures r == ApplyVotes(signs, Parked(old(View()), hash))
      ensures voteSet == old(voteSet) - {hash}
    {
      r := signs;
      if hash in voteSet {
        var votes := voteSet[hash];
        for i := 0 to |votes|
          invariant ApplyVotes(signs, votes) == ApplyVotes(r, votes[i..])
        {
          assert votes[i..][0] == votes[i] && votes[i..][1..] == votes[i + 1..];
          if votes[i].voter !in r {
            r := r[votes[i].voter := votes[i].cert];
          }
        }
        voteSet := voteSet - {hash};
      }
    }

    method OnProposalVote(vote: Vote) returns (ok: bool)
      modifies this
      ensures Outcome(View(), ok) == Replica.OnProposalVote(env, old(View()), vote)
    {
      if vote.blockHash !in blockCache {
        AddVoteMsg(vote);
        return true;
      }
      var block := blockCache[vote.blockHash];
      if |block.selfQc.signs| >= GetQuorumSize(env.metadata) {
        return true;
      }
      if vote.voter in block.selfQc.signs {
        return false;
      }
      var signs := TakeParked(block.selfQc.blockHash, block.selfQc.signs[vote.voter := vote.cert]);
      block := block.(selfQc := block.selfQc.(signs := signs));
      blockCache := blockCache[vote.blockHash := block];
      assert View() == Tally(old(View()), vote);
      if |block.selfQc.signs| < GetQuorumSize(env.metadata) {
        return true;
      }
      UpdateHighestQC(block, block.selfQc);
      Notify(QcFinishEvent(block.proposer, block.selfQc));
      return true;
    }

    method SignVote(viewNumber: int, hash: Hash) returns (vote: Vote)
      modifies this`signed
      ensures View() == Sign(old(View()), hash)
      ensures vote == VoteProposal(env, viewNumber, hash)
    {
      if !HasBallot(View(), hash) {
        signed := signed + [Ballot(hash, lockedQC.blockHash)];
      }
      vote := Vote(viewNumber, env.id, hash, PartCert(env.id, Signature(env.id, hash)));
    }

    /** Follows `n` parent links from `block`. */
    method WalkParents(block: Block, n: int) returns (ancestor: Option<Block>)
      ensures ancestor == ParentWalk(blockCache, block, n)
    {
      var nblk := block;
      var i := n;
      while i > 0
        invariant ParentWalk(blockCache, block, n) == ParentWalk(blockCache, nblk, i)
      {
        var parent := LoadBlock(nblk.parentHash);
        if parent.None? {
          return None;
        }
        nblk := parent.value;
        i := i - 1;
      }
      return Some(nblk);
    }

    /** The vote rule: raises voteHeight if the block may be voted for. */
    method ApplyVoteRule(block: Block) returns (ok: bool)
      modifies this`voteHeight
      ensures ok <==> !Judge(old(View()), block).Missing?
      ensures voteHeight == if Judge(old(View()), block).Raise? then block.height else old(voteHeight)
    {
      if block.height > voteHeight {
        var jb := GetJustifyBlock(block);
        if jb.None? {
          return false;
        }
        var lockedb := LoadBlock(lockedQC.blockHash);
        if lockedb.None? {
          return false;
        }
        if jb.value.height > lockedb.value.height {
          voteHeight := block.height;
        } else {
          var nblk := WalkParents(block, block.height - lockedb.value.height);
          if nblk.None? {
            return false;
          }
          if nblk.value.selfQc.blockHash == lockedb.value.selfQc.blockHash {
            voteHeight := block.height;
          }
        }
      }
      return true;
    }

    /** As the program has it: the vote goes out whatever the vote rule said. */
    method OnReceiveProposal(prop: Proposal) returns (ok: bool)
      modifies this
      ensures Outcome(View(), ok) == Replica.OnReceiveProposal(env, AsWritten, old(View()), prop)
    {
      var block := prop.block;
      StoreBlock(block);
      var justified := GetJustifyBlock(block);
      if justified.None? {
        return false;
      }
      ok := Update(block);
      if !ok {
        return;
      }
      ok := ApplyVoteRule(block);
      if !ok {
        return;
      }
      var vote := SignVote(prop.viewNumber, block.selfQc.blockHash);
      Notify(ReceiveProposalEvent(prop, vote));
    }

    method OnPropose(curView: int, parentHash: Hash, cmds: Bytes, timestamp: int) returns (ok: bool)
      modifies this
      ensures Outcome(View(), ok) == Replica.OnPropose(env, old(View()), curView, parentHash, cmds, timestamp)
    {
      var parent := LoadBlock(parentHash);
      if parent.None? {
        return false;
      }
      var bare := Block(parentHash, cmds, env.id, parent.value.height + 1, timestamp, Some(genericQC),
                        QuorumCert(curView, [], map[]));
      if bare.height <= voteHeight {
        return false;
      }
      var hash := ComputeBlockHash(env.digest, bare);
      var newBlock := bare.(selfQc := QuorumCert(curView, hash, map[]));
      StoreBlock(newBlock);
      ok := Update(newBlock);
      if !ok {
        return;
      }
      voteHeight := newBlock.height;
      var vote := SignVote(curView, hash);
      ok := OnProposalVote(vote);
      if !ok {
        return;
      }
      Notify(ProposeEvent(Proposal(curView, blockCache[hash])));
    }
  }
}
