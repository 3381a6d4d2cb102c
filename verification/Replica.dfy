/** consensus/consensus.go as functions on the value of a replica. The class in
    HotStuffCore.dfy implements them; the safety proofs are about them. */
module Replica {
  import opened Types
  import opened Quorum
  import opened Entity

  /** What the core hands to the pacemaker through its notify channel. */
  datatype Event =
    | ProposeEvent(proposal: Proposal)
    | ReceiveProposalEvent(received: Proposal, vote: Vote)
    | HqcUpdateEvent(high: QuorumCert)
    | QcFinishEvent(proposer: ReplicaId, qc: QuorumCert)
    | DecideEvent(block: Block)

  /** The first use of the signing key on a block hash, with the block that was locked at that moment. */
  datatype Ballot = Ballot(hash: Hash, lock: Hash)

  /** The program builds and sends a vote whether or not the vote rule raised voteHeight
      (AsWritten). The rule it documents is to vote only when it did (Meant). */
  datatype VoteRule = AsWritten | Meant

  /** The state of one HotStuffCore. `events` is everything sent on the notify channel and
      `signed` all blocks signed, by first signature, oldest first. */
  datatype Core = Core(
    genericQC: QuorumCert,
    lockedQC: QuorumCert,
    execQC: QuorumCert,
    voteHeight: int,
    blockCache: map<Hash, Block>,
    voteSet: map<Hash, seq<Vote>>,
    events: seq<Event>,
    signed: seq<Ballot>)

  /** A handler's effect, and whether it returned a nil error. */
  datatype Outcome = Outcome(core: Core, ok: bool)

  function Initial(env: Env): Core {
    var genesis := Genesis(env.digest);
    StoreBlock(Core(genesis.selfQc, genesis.selfQc, genesis.selfQc, 0, map[], map[], [], []), genesis)
  }

  function StoreBlock(s: Core, block: Block): Core {
    s.(blockCache := s.blockCache[block.selfQc.blockHash := block])
  }

  function LoadBlock(s: Core, hash: Hash): Option<Block> {
    if hash in s.blockCache then Some(s.blockCache[hash]) else None
  }

  function JustifyBlock(s: Core, block: Block): Option<Block> {
    if block.justify.None? then None else LoadBlock(s, block.justify.value.blockHash)
  }

  // ---------------------------------------------------------------------------
  // Certificates

  function UpdateHighestQC(env: Env, s: Core, block: Block, qc: QuorumCert): Core {
    if QcVerifies(env, qc) && s.genericQC.blockHash in s.blockCache &&
       block.height > s.blockCache[s.genericQC.blockHash].height
    then s.(genericQC := qc, events := s.events + [HqcUpdateEvent(qc)])
    else s
  }

  function UpdateLockedQC(s: Core, block: Block, qc: QuorumCert): Core {
    if s.lockedQC.blockHash in s.blockCache && block.height > s.blockCache[s.lockedQC.blockHash].height
    then s.(lockedQC := qc)
    else s
  }

  /** The blocks from `hash` downwards, at most `n` of them; false if one is missing. */
  function DecidedBlocks(store: map<Hash, Block>, hash: Hash, n: int): (seq<Block>, bool)
    decreases n
  {
    if n <= 0 then ([], true)
    else if hash !in store then ([], false)
    else
      var (rest, ok) := DecidedBlocks(store, store[hash].parentHash, n - 1);
      ([store[hash]] + rest, ok)
  }

  function DecideEvents(blocks: seq<Block>): seq<Event> {
    seq(|blocks|, i requires 0 <= i < |blocks| => DecideEvent(blocks[i]))
  }

  /** b'' and b' sit directly on the blocks they justify. */
  predicate ThreeChain(block2: Block, block1: Block) {
    && block2.justify.Some? && block2.parentHash == block2.justify.value.blockHash
    && block1.justify.Some? && block1.parentHash == block1.justify.value.blockHash
  }

  /** The decide phase, once b'' = block2, b' = block1 and b = block0 are at hand. */
  function Decide(env: Env, s: Core, block1: Block, block0: Block): (r: Outcome)
    requires block1.justify.Some?
    ensures r.core == s.(execQC := r.core.execQC, events := r.core.events)
  {
    if s.execQC.blockHash !in s.blockCache then Outcome(s, false)
    else
      var execHeight := s.blockCache[s.execQC.blockHash].height;
      var (blocks, ok) := DecidedBlocks(s.blockCache, GetBlockHash(env.digest, block0), block0.height - execHeight);
      Outcome(s.(execQC := block1.justify.value, events := s.events + DecideEvents(blocks)), ok)
  }

  /** Only certificates and events change. */
  function Update(env: Env, s: Core, block: Block): (r: Outcome)
    ensures r.core == s.(genericQC := r.core.genericQC, lockedQC := r.core.lockedQC,
                         execQC := r.core.execQC, events := r.core.events)
  {
    match JustifyBlock(s, block)
    case None => Outcome(s, false)
    case Some(block2) =>
      var s1 := UpdateHighestQC(env, s, block2, block.justify.value);
      match JustifyBlock(s1, block2)
      case None => Outcome(s1, true)
      case Some(block1) =>
        var s2 := UpdateLockedQC(s1, block1, block2.justify.value);
        match JustifyBlock(s2, block1)
        case None => Outcome(s2, true)
        case Some(block0) =>
          if !ThreeChain(block2, block1) then Outcome(s2, true)
          else Decide(env, s2, block1, block0)
  }

  // ---------------------------------------------------------------------------
  // Tally

  /** Votes are added for voters that have none yet; the first one stays. */
  function ApplyVotes(signs: map<ReplicaId, PartCert>, votes: seq<Vote>): map<ReplicaId, PartCert>
    decreases |votes|
  {
    if votes == [] then signs
    else ApplyVotes(if votes[0].voter in signs then signs else signs[votes[0].voter := votes[0].cert], votes[1..])
  }

  function Parked(s: Core, hash: Hash): seq<Vote> {
    if hash in s.voteSet then s.voteSet[hash] else []
  }

  function AddVoteMsg(s: Core, vote: Vote): Core {
    s.(voteSet := s.voteSet[vote.blockHash := Parked(s, vote.blockHash) + [vote]])
  }

  /** The stored block with one more vote and all parked votes for it. */
  function Tally(s: Core, vote: Vote): Core
    requires vote.blockHash in s.blockCache
  {
    var block := s.blockCache[vote.blockHash];
    var hash := block.selfQc.blockHash;
    var signs := ApplyVotes(block.selfQc.signs[vote.voter := vote.cert], Parked(s, hash));
    s.(blockCache := s.blockCache[vote.blockHash := block.(selfQc := block.selfQc.(signs := signs))],
       voteSet := s.voteSet - {hash})
  }

  /** No block is added or dropped, and nothing is signed. */
  function OnProposalVote(env: Env, s: Core, vote: Vote): (r: Outcome)
    ensures r.core.blockCache.Keys == s.blockCache.Keys
    ensures r.core == s.(genericQC := r.core.genericQC, blockCache := r.core.blockCache,
                         voteSet := r.core.voteSet, events := r.core.events)
  {
    if vote.blockHash !in s.blockCache then Outcome(AddVoteMsg(s, vote), true)
    else
      var signs := s.blockCache[vote.blockHash].selfQc.signs;
      if |signs| >= GetQuorumSize(env.metadata) then Outcome(s, true)
      else if vote.voter in signs then Outcome(s, false)
      else
        var s1 := Tally(s, vote);
        var block := s1.blockCache[vote.blockHash];
        if |block.selfQc.signs| < GetQuorumSize(env.metadata) then Outcome(s1, true)
        else
          var s2 := UpdateHighestQC(env, s1, block, block.selfQc);
          Outcome(s2.(events := s2.events + [QcFinishEvent(block.proposer, block.selfQc)]), true)
  }

  // ---------------------------------------------------------------------------
  // Voting

  function VoteProposal(env: Env, viewNumber: int, hash: Hash): Vote {
    Vote(viewNumber, env.id, hash, PartCert(env.id, Signature(env.id, hash)))
  }

  /** The block `n` parent links above `block`, if every one of them is stored. */
  function ParentWalk(store: map<Hash, Block>, block: Block, n: int): Option<Block>
    decreases n
  {
    if n <= 0 then Some(block)
    else if block.parentHash !in store then None
    else ParentWalk(store, store[block.parentHash], n - 1)
  }

  /** The vote rule raises voteHeight, leaves it, or fails on a missing block. */
  datatype Verdict = Raise | Leave | Missing

  function Judge(s: Core, block: Block): Verdict {
    if block.height <= s.voteHeight then Leave
    else match JustifyBlock(s, block)
      case None => Missing
      case Some(jb) =>
        match LoadBlock(s, s.lockedQC.blockHash)
        case None => Missing
        case Some(lockedb) =>
          if jb.height > lockedb.height then Raise
          else match ParentWalk(s.blockCache, block, block.height - lockedb.height)
            case None => Missing
            case Some(nblk) => if nblk.selfQc.blockHash == lockedb.selfQc.blockHash then Raise else Leave
  }

  predicate HasBallot(s: Core, h: Hash) {
    exists i :: 0 <= i < |s.signed| && s.signed[i].hash == h
  }

  /** Signing a hash again makes nothing that was not there. */
  function Sign(s: Core, hash: Hash): (r: Core)
    ensures HasBallot(r, hash) && s.signed <= r.signed && (HasBallot(s, hash) ==> r == s)
  {
    if HasBallot(s, hash) then s
    else
      var r := s.(signed := s.signed + [Ballot(hash, s.lockedQC.blockHash)]);
      assert r.signed[|s.signed|].hash == hash;
      r
  }

  function SendVote(env: Env, s: Core, prop: Proposal): Core {
    var hash := prop.block.selfQc.blockHash;
    var s1 := Sign(s, hash);
    s1.(events := s1.events + [ReceiveProposalEvent(prop, VoteProposal(env, prop.viewNumber, hash))])
  }

  /** The part of OnReceiveProposal before the vote rule. */
  function Absorb(env: Env, s: Core, block: Block): Outcome {
    var s1 := StoreBlock(s, block);
    if JustifyBlock(s1, block).None? then Outcome(s1, false) else Update(env, s1, block)
  }

  /** The handler reaches the vote rule and the rule raises voteHeight. */
  predicate Accepts(env: Env, s: Core, block: Block) {
    var u := Absorb(env, s, block);
    u.ok && Judge(u.core, block).Raise?
  }

  /** The vote for a block that update is done with. */
  function VoteFor(env: Env, rule: VoteRule, u: Outcome, prop: Proposal): (r: Outcome)
    ensures r.core == u.core.(voteHeight := r.core.voteHeight, signed := r.core.signed, events := r.core.events)
    ensures r.core.events == u.core.events ||
            r.core.events == u.core.events +
              [ReceiveProposalEvent(prop, VoteProposal(env, prop.viewNumber, prop.block.selfQc.blockHash))]
  {
    if !u.ok then u
    else match Judge(u.core, prop.block)
      case Missing => Outcome(u.core, false)
      case Raise => Outcome(SendVote(env, u.core.(voteHeight := prop.block.height), prop), true)
      case Leave => Outcome(if rule.AsWritten? then SendVote(env, u.core, prop) else u.core, true)
  }

  function OnReceiveProposal(env: Env, rule: VoteRule, s: Core, prop: Proposal): Outcome {
    VoteFor(env, rule, Absorb(env, s, prop.block), prop)
  }

  function CreateLeaf(env: Env, s: Core, parentHash: Hash, cmds: Bytes, height: int, timestamp: int, curView: int): Block {
    var bare := Block(parentHash, cmds, env.id, height, timestamp, Some(s.genericQC), QuorumCert(curView, [], map[]));
    bare.(selfQc := QuorumCert(curView, GetBlockHash(env.digest, bare), map[]))
  }

  /** The block OnPropose stores, if it gets that far. */
  function NewLeaf(env: Env, s: Core, curView: int, parentHash: Hash, cmds: Bytes, timestamp: int): Option<Block> {
    match LoadBlock(s, parentHash)
    case None => None
    case Some(parent) =>
      if parent.height + 1 <= s.voteHeight then None
      else Some(CreateLeaf(env, s, parentHash, cmds, parent.height + 1, timestamp, curView))
  }

  /** The proposer votes for its stored block and announces it. */
  function SelfVote(env: Env, s: Core, curView: int, block: Block): Outcome
    requires block.selfQc.blockHash in s.blockCache
  {
    var hash := block.selfQc.blockHash;
    var voted := Sign(s.(voteHeight := block.height), hash);
    var o := OnProposalVote(env, voted, VoteProposal(env, curView, hash));
    if !o.ok then o
    else Outcome(o.core.(events := o.core.events + [ProposeEvent(Proposal(curView, o.core.blockCache[hash]))]), true)
  }

  /** Storing, updating with and voting for a new block of its own. */
  function ProposeLeaf(env: Env, s: Core, curView: int, block: Block): Outcome {
    var u := Update(env, StoreBlock(s, block), block);
    if !u.ok then u else SelfVote(env, u.core, curView, block)
  }

  function OnPropose(env: Env, s: Core, curView: int, parentHash: Hash, cmds: Bytes, timestamp: int): Outcome {
    match NewLeaf(env, s, curView, parentHash, cmds, timestamp)
    case None => Outcome(s, false)
    case Some(block) => ProposeLeaf(env, s, curView, block)
  }
}
