/** What a replica tells its pacemaker: every notice of every run says what is the case. */
module Notices {
  import opened Types
  import opened Quorum
  import opened Entity
  import opened Replica
  import opened World
  import opened System
  import TallyRuns

  /** The certificate of the last HqcUpdate notice, or `first` if there was none. */
  function LastHigh(first: QuorumCert, events: seq<Event>): QuorumCert {
    if events == [] then first
    else if events[|events| - 1].HqcUpdateEvent? then events[|events| - 1].high
    else LastHigh(first, events[..|events| - 1])
  }

  /** The notice says what is the case. A proposal is this replica's own, for the view it names, under its real hash
      and signed. A vote is this replica's, for the view and block of the proposal received, and signed. A highest
      certificate verifies, and a finished one has N - F entries. */
  predicate IsTrue(env: Env, c: Core, e: Event) {
    match e
    case ProposeEvent(prop) =>
      && prop.block.proposer == env.id && prop.block.selfQc.viewNumber == prop.viewNumber
      && prop.block.selfQc.blockHash == GetBlockHash(env.digest, prop.block) && HasBallot(c, prop.block.selfQc.blockHash)
    case ReceiveProposalEvent(prop, vote) =>
      var hash := prop.block.selfQc.blockHash;
      vote == Vote(prop.viewNumber, env.id, hash, PartCert(env.id, Signature(env.id, hash))) && HasBallot(c, hash)
    case HqcUpdateEvent(high) => QcVerifies(env, high)
    case QcFinishEvent(_, qc) => |qc.signs| >= env.metadata.n - env.metadata.f
    case DecideEvent(_) => true
  }

  /** All notices are true, and the last about the highest certificate is about the one the replica has. */
  predicate Told(env: Env, c: Core) {
    && (forall i :: 0 <= i < |c.events| ==> IsTrue(env, c, c.events[i]))
    && c.genericQC == LastHigh(Genesis(env.digest).selfQc, c.events)
  }

  lemma BallotsStay(c: Core, d: Core, h: Hash)
    requires c.signed <= d.signed && HasBallot(c, h)
    ensures HasBallot(d, h)
  {
    var i :| 0 <= i < |c.signed| && c.signed[i].hash == h;
    assert d.signed[i] == c.signed[i];
  }

  lemma StaysTrue(env: Env, c: Core, d: Core, e: Event)
    requires c.signed <= d.signed && IsTrue(env, c, e)
    ensures IsTrue(env, d, e)
  {
    if e.ProposeEvent? {
      BallotsStay(c, d, e.proposal.block.selfQc.blockHash);
    } else if e.ReceiveProposalEvent? {
      BallotsStay(c, d, e.received.block.selfQc.blockHash);
    }
  }

  lemma QuietKeeps(env: Env, c: Core, d: Core)
    requires Told(env, c) && c.signed <= d.signed && d.events == c.events && d.genericQC == c.genericQC
    ensures Told(env, d)
  {
    forall i | 0 <= i < |d.events|
      ensures IsTrue(env, d, d.events[i])
    {
      StaysTrue(env, c, d, c.events[i]);
    }
  }

  lemma OneMoreKeeps(env: Env, c: Core, d: Core, e: Event)
    requires Told(env, c) && c.signed <= d.signed && d.events == c.events + [e] && IsTrue(env, d, e)
    requires d.genericQC == if e.HqcUpdateEvent? then e.high else c.genericQC
    ensures Told(env, d)
  {
    forall i | 0 <= i < |d.events|
      ensures IsTrue(env, d, d.events[i])
    {
      if i < |c.events| { StaysTrue(env, c, d, c.events[i]); }
    }
    assert d.events[..|c.events|] == c.events;
  }

  lemma {:induction false} DecidesKeep(env: Env, c: Core, blocks: seq<Block>)
    requires Told(env, c)
    ensures Told(env, c.(events := c.events + DecideEvents(blocks)))
    decreases |blocks|
  {
    if blocks == [] {
      assert c.events + DecideEvents(blocks) == c.events;
    } else {
      var k := |blocks| - 1;
      var before := c.(events := c.events + DecideEvents(blocks[..k]));
      DecidesKeep(env, c, blocks[..k]);
      assert c.events + DecideEvents(blocks) == before.events + [DecideEvent(blocks[k])];
      OneMoreKeeps(env, before, c.(events := c.events + DecideEvents(blocks)), DecideEvent(blocks[k]));
    }
  }

  lemma MovedKeeps(env: Env, c: Core, d: Core, blocks: seq<Block>)
    requires Told(env, c) && d == c.(execQC := d.execQC, events := c.events + DecideEvents(blocks))
    ensures Told(env, d)
  {
    DecidesKeep(env, c, blocks);
    QuietKeeps(env, c.(events := c.events + DecideEvents(blocks)), d);
  }

  /** The highest certificate moves, with the notice of exactly this certificate, if and only if it verifies, the block
      of the old one is stored, and its own block is higher. */
  lemma HighestTells(env: Env, c: Core, block: Block, qc: QuorumCert)
    ensures var d := UpdateHighestQC(env, c, block, qc);
            if QcVerifies(env, qc) && c.genericQC.blockHash in c.blockCache &&
               c.blockCache[c.genericQC.blockHash].height < block.height
            then d.genericQC == qc && d.events == c.events + [HqcUpdateEvent(qc)]
            else d == c
    ensures Told(env, c) ==> Told(env, UpdateHighestQC(env, c, block, qc))
  {
    var d := UpdateHighestQC(env, c, block, qc);
    if Told(env, c) && d != c {
      OneMoreKeeps(env, c, d, HqcUpdateEvent(qc));
    }
  }

  /** The lock moves to the certificate offered if and only if its own block is stored and the block offered is higher. */
  lemma LockMovesIff(c: Core, block: Block, qc: QuorumCert)
    ensures var d, h := UpdateLockedQC(c, block, qc), c.lockedQC.blockHash;
            && d == c.(lockedQC := d.lockedQC)
            && (h in c.blockCache && c.blockCache[h].height < block.height ==> d.lockedQC == qc)
            && (h !in c.blockCache || c.blockCache[h].height >= block.height ==> d.lockedQC == c.lockedQC)
  {
  }

  lemma UpdateTells(env: Env, c: Core, block: Block)
    requires Told(env, c)
    ensures Told(env, Update(env, c, block).core)
  {
    match JustifyBlock(c, block)
    case None =>
    case Some(block2) =>
      var s1 := UpdateHighestQC(env, c, block2, block.justify.value);
      HighestTells(env, c, block2, block.justify.value);
      match JustifyBlock(s1, block2)
      case None =>
      case Some(block1) =>
        var s2 := UpdateLockedQC(s1, block1, block2.justify.value);
        QuietKeeps(env, s1, s2);
        match JustifyBlock(s2, block1)
        case None =>
        case Some(block0) => if ThreeChain(block2, block1) { DecideTells(env, s2, block1, block0); }
  }

  lemma DecideMoves(env: Env, c: Core, block1: Block, block0: Block) returns (blocks: seq<Block>)
    requires block1.justify.Some?
    ensures var d := Decide(env, c, block1, block0).core;
            d.events == c.events + DecideEvents(blocks) && d == c.(execQC := d.execQC, events := d.events)
  {
    blocks := if c.execQC.blockHash !in c.blockCache then []
              else DecidedBlocks(c.blockCache, GetBlockHash(env.digest, block0),
                                 block0.height - c.blockCache[c.execQC.blockHash].height).0;
    assert c.events + DecideEvents([]) == c.events;
  }

  lemma DecideTells(env: Env, c: Core, block1: Block, block0: Block)
    requires Told(env, c) && block1.justify.Some?
    ensures Told(env, Decide(env, c, block1, block0).core)
  {
    var blocks := DecideMoves(env, c, block1, block0);
    MovedKeeps(env, c, Decide(env, c, block1, block0).core, blocks);
  }

  lemma VoteTells(env: Env, c: Core, vote: Vote)
    requires Told(env, c)
    ensures Told(env, OnProposalVote(env, c, vote).core)
  {
    if vote.blockHash !in c.blockCache {
      QuietKeeps(env, c, AddVoteMsg(c, vote));
    } else if OnProposalVote(env, c, vote).core != c {
      var s1 := Tally(c, vote);
      QuietKeeps(env, c, s1);
      var block := s1.blockCache[vote.blockHash];
      if |block.selfQc.signs| >= GetQuorumSize(env.metadata) {
        var s2 := UpdateHighestQC(env, s1, block, block.selfQc);
        HighestTells(env, s1, block, block.selfQc);
        OneMoreKeeps(env, s2, OnProposalVote(env, c, vote).core, QcFinishEvent(block.proposer, block.selfQc));
      }
    }
  }

  lemma SendTells(env: Env, c: Core, prop: Proposal)
    requires Told(env, c)
    ensures Told(env, SendVote(env, c, prop))
  {
    var hash := prop.block.selfQc.blockHash;
    QuietKeeps(env, c, Sign(c, hash));
    OneMoreKeeps(env, Sign(c, hash), SendVote(env, c, prop),
                 ReceiveProposalEvent(prop, VoteProposal(env, prop.viewNumber, hash)));
  }

  lemma ReceiveTells(env: Env, rule: VoteRule, c: Core, prop: Proposal)
    requires Told(env, c)
    ensures Told(env, OnReceiveProposal(env, rule, c, prop).core)
  {
    var s1, a := StoreBlock(c, prop.block), Absorb(env, c, prop.block);
    QuietKeeps(env, c, s1);
    UpdateTells(env, s1, prop.block);
    var raised := a.core.(voteHeight := prop.block.height);
    QuietKeeps(env, a.core, raised);
    SendTells(env, raised, prop);
    SendTells(env, a.core, prop);
  }

  // ---------------------------------------------------------------------------
  // Proposals

  /** What counting a vote leaves of a stored block: all but its tally. */
  lemma VoteKeepsBlock(env: Env, c: Core, vote: Vote)
    requires vote.blockHash in c.blockCache
    ensures var o, b := OnProposalVote(env, c, vote), c.blockCache[vote.blockHash];
            var x := o.core.blockCache[vote.blockHash];
            x == b.(selfQc := b.selfQc.(signs := x.selfQc.signs))
  {
  }

  lemma TallyCounts(c: Core, vote: Vote)
    requires vote.blockHash in c.blockCache
    ensures var signs := Tally(c, vote).blockCache[vote.blockHash].selfQc.signs;
            vote.voter in signs && signs[vote.voter] == vote.cert
  {
    var b := c.blockCache[vote.blockHash];
    TallyRuns.ApplyVotesKeys(b.selfQc.signs[vote.voter := vote.cert], Parked(c, b.selfQc.blockHash));
  }

  /** A first vote is always counted. */
  lemma FirstIsCounted(env: Env, c: Core, vote: Vote)
    requires vote.blockHash in c.blockCache && c.blockCache[vote.blockHash].selfQc.signs == map[]
    requires GetQuorumSize(env.metadata) > 0
    ensures var o := OnProposalVote(env, c, vote);
            var signs := o.core.blockCache[vote.blockHash].selfQc.signs;
            o.ok && vote.voter in signs && signs[vote.voter] == vote.cert
  {
    TallyCounts(c, vote);
  }

  lemma HashIgnoresTally(digest: Bytes -> Hash, b: Block, signs: map<ReplicaId, PartCert>)
    requires b.selfQc.blockHash == GetBlockHash(digest, b)
    ensures var x := b.(selfQc := b.selfQc.(signs := signs)); x.selfQc.blockHash == GetBlockHash(digest, x)
  {
  }

  lemma SelfVoteTells(env: Env, c: Core, curView: int, block: Block)
    requires Told(env, c) && block.selfQc.blockHash in c.blockCache && c.blockCache[block.selfQc.blockHash] == block
    requires block.proposer == env.id && block.selfQc.viewNumber == curView
    requires block.selfQc.blockHash == GetBlockHash(env.digest, block)
    ensures Told(env, SelfVote(env, c, curView, block).core)
  {
    var hash := block.selfQc.blockHash;
    var voted := Sign(c.(voteHeight := block.height), hash);
    var vote := VoteProposal(env, curView, hash);
    var o := OnProposalVote(env, voted, vote);
    QuietKeeps(env, c, voted);
    VoteTells(env, voted, vote);
    VoteKeepsBlock(env, voted, vote);
    HashIgnoresTally(env.digest, block, o.core.blockCache[hash].selfQc.signs);
    if o.ok {
      BallotsStay(voted, o.core, hash);
      BallotsStay(voted, SelfVote(env, c, curView, block).core, hash);
      OneMoreKeeps(env, o.core, SelfVote(env, c, curView, block).core,
                   ProposeEvent(Proposal(curView, o.core.blockCache[hash])));
    }
  }

  lemma LeafTells(env: Env, c: Core, curView: int, block: Block)
    requires Told(env, c) && block.proposer == env.id && block.selfQc.viewNumber == curView
    requires block.selfQc.blockHash == GetBlockHash(env.digest, block)
    ensures Told(env, ProposeLeaf(env, c, curView, block).core)
  {
    var s1 := StoreBlock(c, block);
    QuietKeeps(env, c, s1);
    UpdateTells(env, s1, block);
    if Update(env, s1, block).ok {
      SelfVoteTells(env, Update(env, s1, block).core, curView, block);
    }
  }

  lemma LeafIsOwn(env: Env, c: Core, curView: int, parentHash: Hash, cmds: Bytes, timestamp: int)
    requires NewLeaf(env, c, curView, parentHash, cmds, timestamp).Some?
    ensures var b := NewLeaf(env, c, curView, parentHash, cmds, timestamp).value;
            && b.proposer == env.id && b.selfQc == QuorumCert(curView, GetBlockHash(env.digest, b), map[])
            && b.cmds == cmds && b.timestamp == timestamp && b.justify == Some(c.genericQC)
            && parentHash in c.blockCache && b.parentHash == parentHash && b.height == c.blockCache[parentHash].height + 1
  {
  }

  lemma ProposeTells(env: Env, c: Core, curView: int, parentHash: Hash, cmds: Bytes, timestamp: int)
    requires Told(env, c)
    ensures Told(env, OnPropose(env, c, curView, parentHash, cmds, timestamp).core)
  {
    if NewLeaf(env, c, curView, parentHash, cmds, timestamp).Some? {
      LeafIsOwn(env, c, curView, parentHash, cmds, timestamp);
      LeafTells(env, c, curView, NewLeaf(env, c, curView, parentHash, cmds, timestamp).value);
    }
  }

  /** The announced block: the given commands, time and parent, one higher than the parent, justified by what was the
      highest certificate at the call, and with the proposer's own vote in its tally. */
  predicate Announces(env: Env, c: Core, curView: int, parentHash: Hash, cmds: Bytes, timestamp: int, prop: Proposal) {
    var b := prop.block;
    && prop.viewNumber == curView == b.selfQc.viewNumber && b.proposer == env.id
    && parentHash in c.blockCache && b.parentHash == parentHash && b.height == c.blockCache[parentHash].height + 1
    && b.cmds == cmds && b.timestamp == timestamp && b.justify == Some(c.genericQC)
    && b.selfQc.blockHash == GetBlockHash(env.digest, b) && env.id in b.selfQc.signs
    && b.selfQc.signs[env.id] == PartCert(env.id, Signature(env.id, b.selfQc.blockHash))
  }

  /** Unless it returns an error OnPropose ends with the notice of its proposal, which is stored as announced and is
      above voteHeight, which goes to its height. */
  lemma ProposalIsAnnounced(env: Env, c: Core, curView: int, parentHash: Hash, cmds: Bytes, timestamp: int)
    requires GetQuorumSize(env.metadata) > 0
    ensures var o := OnPropose(env, c, curView, parentHash, cmds, timestamp);
            o.ok ==>
              && o.core.events != [] && o.core.events[|o.core.events| - 1].ProposeEvent?
              && var prop := o.core.events[|o.core.events| - 1].proposal;
              && Announces(env, c, curView, parentHash, cmds, timestamp, prop)
              && prop.block.selfQc.blockHash in o.core.blockCache
              && o.core.blockCache[prop.block.selfQc.blockHash] == prop.block
              && c.voteHeight < prop.block.height == o.core.voteHeight
  {
    var o := OnPropose(env, c, curView, parentHash, cmds, timestamp);
    if o.ok {
      LeafIsOwn(env, c, curView, parentHash, cmds, timestamp);
      var block := NewLeaf(env, c, curView, parentHash, cmds, timestamp).value;
      SelfVoteAnnounces(env, Update(env, StoreBlock(c, block), block).core, curView, block);
    }
  }

  lemma SelfVoteAnnounces(env: Env, c: Core, curView: int, block: Block)
    requires block.selfQc.blockHash in c.blockCache && c.blockCache[block.selfQc.blockHash] == block
    requires block.selfQc.signs == map[] && GetQuorumSize(env.metadata) > 0
    requires block.selfQc.blockHash == GetBlockHash(env.digest, block)
    ensures var o, hash := SelfVote(env, c, curView, block), block.selfQc.blockHash;
            && o.ok && o.core.voteHeight == block.height && hash in o.core.blockCache
            && var b := o.core.blockCache[hash];
            && b == block.(selfQc := block.selfQc.(signs := b.selfQc.signs)) && hash == GetBlockHash(env.digest, b)
            && env.id in b.selfQc.signs && b.selfQc.signs[env.id] == PartCert(env.id, Signature(env.id, hash))
            && o.core.events != [] && o.core.events[|o.core.events| - 1] == ProposeEvent(Proposal(curView, b))
  {
    var hash := block.selfQc.blockHash;
    var voted := Sign(c.(voteHeight := block.height), hash);
    VoteKeepsBlock(env, voted, VoteProposal(env, curView, hash));
    FirstIsCounted(env, voted, VoteProposal(env, curView, hash));
    HashIgnoresTally(env.digest, block, SelfVote(env, c, curView, block).core.blockCache[hash].selfQc.signs);
  }

  // ---------------------------------------------------------------------------
  // Runs

  lemma StepTells(u: Setup, rule: VoteRule, s: System, a: Action)
    requires !a.Appear? && a.r in s.cores && Told(EnvOf(u, a.r), s.cores[a.r])
    ensures Told(EnvOf(u, a.r), Handle(u, rule, s, a))
  {
    var env, c := EnvOf(u, a.r), s.cores[a.r];
    match a
    case Propose(_, curView, cmds, timestamp) => ProposeTells(env, c, curView, c.genericQC.blockHash, cmds, timestamp);
    case Deliver(_, prop) => ReceiveTells(env, rule, c, prop);
    case CastVote(_, vote) => VoteTells(env, c, vote);
    case ReceiveQC(_, qc) =>
      if qc.blockHash in c.blockCache { HighestTells(env, c, c.blockCache[qc.blockHash], qc); }
  }

  /** In every run, under either vote rule, all that an honest replica has told its pacemaker is true, and the last
      certificate it announced as its highest is the one it has. */
  lemma {:induction false} NoticesAreTrue(u: Setup, rule: VoteRule, run: seq<Action>, s: System, r: ReplicaId)
    requires Exec(u, rule, run) == Some(s) && r in s.cores
    ensures Told(EnvOf(u, r), s.cores[r])
    decreases |run|
  {
    if run != [] {
      var before, a := Exec(u, rule, run[..|run| - 1]).value, run[|run| - 1];
      NoticesAreTrue(u, rule, run[..|run| - 1], before, r);
      if !a.Appear? && a.r == r { StepTells(u, rule, before, a); }
    }
  }

  // ---------------------------------------------------------------------------
  // Beginnings

  /** Genesis is hashed as eight zero bytes, the height alone, and its certificate is for view -1. */
  lemma GenesisHash(digest: Bytes -> Hash)
    ensures var g := Genesis(digest);
            && g.selfQc.blockHash == digest([0, 0, 0, 0, 0, 0, 0, 0]) && g.selfQc.viewNumber == -1
            && g.selfQc.signs == map[] && g.height == 0 && g.justify == None
  {
    var zeros: Bytes := [0, 0, 0, 0, 0, 0, 0, 0];
    HashOfLayout(digest, Genesis(digest), zeros);
  }

  /** Nothing is parked for `h` any more, but all that was is counted, and what is parked for others stays. */
  predicate Unparked(c: Core, d: Core, h: Hash) {
    && h in d.blockCache && Parked(d, h) == [] && d.voteSet == c.voteSet - {h}
    && TallyRuns.VotersOf(Parked(c, h)) <= d.blockCache[h].selfQc.signs.Keys
  }

  lemma TallyUnparks(c: Core, vote: Vote)
    requires vote.blockHash in c.blockCache && c.blockCache[vote.blockHash].selfQc.blockHash == vote.blockHash
    ensures Unparked(c, Tally(c, vote), vote.blockHash)
  {
    var signs := c.blockCache[vote.blockHash].selfQc.signs;
    TallyRuns.ApplyVotesKeys(signs[vote.voter := vote.cert], Parked(c, vote.blockHash));
  }

  /** A vote that is counted takes with it all that were parked for its block. */
  lemma CountingUnparks(env: Env, c: Core, vote: Vote)
    requires vote.blockHash in c.blockCache && c.blockCache[vote.blockHash].selfQc.blockHash == vote.blockHash
    requires vote.voter !in c.blockCache[vote.blockHash].selfQc.signs
    requires |c.blockCache[vote.blockHash].selfQc.signs| < env.metadata.n - env.metadata.f
    ensures Unparked(c, OnProposalVote(env, c, vote).core, vote.blockHash)
  {
    TallyUnparks(c, vote);
  }

  /** Of several votes of one voter the first counts, unless a certificate of its is recorded already. */
  lemma {:induction false} FirstVoteCounts(signs: map<ReplicaId, PartCert>, votes: seq<Vote>, i: nat)
    requires i < |votes| && votes[i].voter !in signs
    requires forall j :: 0 <= j < i ==> votes[j].voter != votes[i].voter
    ensures votes[i].voter in ApplyVotes(signs, votes) && ApplyVotes(signs, votes)[votes[i].voter] == votes[i].cert
    decreases |votes|
  {
    var next := if votes[0].voter in signs then signs else signs[votes[0].voter := votes[0].cert];
    if i == 0 {
      TallyRuns.ApplyVotesKeys(next, votes[1..]);
    } else {
      FirstVoteCounts(next, votes[1..], i - 1);
    }
  }
}
