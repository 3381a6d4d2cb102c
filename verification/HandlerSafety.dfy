/** Every handler of an honest replica keeps CoreInv, and every ballot it casts is a valid one. */
module HandlerSafety {
  import opened Types
  import opened Quorum
  import opened Entity
  import opened Replica
  import opened BlockTree
  import opened Heights
  import opened SafeVotes
  import opened World
  import opened WorldSteps
  import opened ReplicaInv

  /** A change of store and parked votes alone keeps the rest of the invariant. */
  lemma Reassemble(u: Setup, w: World, c: Core, d: Core)
    requires CoreInv(u, w, c) && d == c.(blockCache := d.blockCache, voteSet := d.voteSet)
    requires c.blockCache.Keys <= d.blockCache.Keys && StoreInv(u, w, d) && ParkedInv(u, w, d)
    ensures CoreInv(u, w, d)
  {
    assert d.events == c.events && d.signed == c.signed;
  }

  lemma StoreKeeps(u: Setup, w: World, c: Core, block: Block)
    requires CoreInv(u, w, c)
    requires block.selfQc.blockHash in w.tree && w.tree[block.selfQc.blockHash] == NodeOf(block)
    requires GetBlockHash(u.digest, block) == block.selfQc.blockHash && Authentic(u, w, block.selfQc)
    ensures CoreInv(u, w, StoreBlock(c, block))
  {
    var d := StoreBlock(c, block);
    forall h | h in d.blockCache
      ensures StoredAt(u, w, d, h)
    {
      if h != block.selfQc.blockHash {
        assert StoredAt(u, w, c, h);
      }
    }
    Reassemble(u, w, c, d);
  }

  // ---------------------------------------------------------------------------
  // Ballots

  /** Signing a block above voteHeight that is safe and whose lock is in place is a valid ballot. */
  lemma SignIsValid(u: Setup, w: World, r: ReplicaId, c: Core, h: Hash)
    requires WorldInv(u, w) && r in w.ballots && c.signed == w.ballots[r]
    requires Ordered(w.tree, G(u), c) && Backed(u, w, c) && VoteInv(w, c)
    requires h in w.tree && h != G(u) && SafeNode(w.tree, h, c.lockedQC.blockHash)
    requires c.voteHeight < w.tree[h].height
    requires LockBound(w.tree, h) <= HeightOf(w.tree, c.lockedQC)
    ensures ValidBallot(u, w, r, Ballot(h, c.lockedQC.blockHash))
  {
  }

  lemma SignKeeps(u: Setup, w: World, r: ReplicaId, c: Core, h: Hash)
    requires Sound(u) && WorldInv(u, w) && r in w.ballots && c.signed == w.ballots[r] && CoreInv(u, w, c)
    requires h in w.tree && h != G(u) && SafeNode(w.tree, h, c.lockedQC.blockHash)
    requires c.voteHeight < w.tree[h].height
    requires LockBound(w.tree, h) <= HeightOf(w.tree, c.lockedQC)
    ensures var v := WithBallot(w, r, Ballot(h, c.lockedQC.blockHash));
            var d := Sign(c.(voteHeight := w.tree[h].height), h);
            Grows(w, v) && WorldInv(u, v) && CoreInv(u, v, d) && d.signed == v.ballots[r]
  {
    var v := WithBallot(w, r, Ballot(h, c.lockedQC.blockHash));
    if HasBallot(c, h) { SignedIsLow(w, c, h); }
    SignIsValid(u, w, r, c, h);
    AddBallot(u, w, r, Ballot(h, c.lockedQC.blockHash));
    CoreGrows(u, w, v, c);
    RaiseKeeps(u, v, c, h, Sign(c.(voteHeight := w.tree[h].height), h));
  }

  lemma RaiseKeeps(u: Setup, w: World, c: Core, h: Hash, d: Core)
    requires CoreInv(u, w, c) && h in w.tree && c.voteHeight < w.tree[h].height
    requires LockBound(w.tree, h) <= HeightOf(w.tree, c.lockedQC)
    requires d == c.(voteHeight := w.tree[h].height, signed := c.signed + [Ballot(h, c.lockedQC.blockHash)])
    ensures CoreInv(u, w, d)
  {
    SameStoreAndEvents(u, w, c, d);
  }

  lemma SameStoreAndEvents(u: Setup, w: World, c: Core, d: Core)
    requires d == c.(voteHeight := d.voteHeight, signed := d.signed)
    requires StoreInv(u, w, c) && ParkedInv(u, w, c) && DecidedInv(u, w, c)
    ensures StoreInv(u, w, d) && ParkedInv(u, w, d) && DecidedInv(u, w, d)
  {
    forall h | h in d.blockCache
      ensures StoredAt(u, w, d, h)
    {
      assert StoredAt(u, w, c, h);
    }
    assert d.events == c.events;
  }

  lemma NotifyKeeps(u: Setup, w: World, c: Core, e: Event)
    requires CoreInv(u, w, c) && !e.DecideEvent?
    ensures CoreInv(u, w, c.(events := c.events + [e]))
  {
    SameStore(u, w, c, c.(events := c.events + [e]));
    KeepsEvents(u, w, c, e);
  }

  // ---------------------------------------------------------------------------
  // The tally

  lemma {:induction false} AppliedVotesAuthentic(
      u: Setup, w: World, h: Hash, view: int, signs: map<ReplicaId, PartCert>, votes: seq<Vote>)
    requires Authentic(u, w, QuorumCert(view, h, signs))
    requires forall i :: 0 <= i < |votes| ==> votes[i].blockHash == h && AuthenticVote(u, w, votes[i])
    ensures Authentic(u, w, QuorumCert(view, h, ApplyVotes(signs, votes)))
    decreases |votes|
  {
    if votes != [] {
      var next := if votes[0].voter in signs then signs else signs[votes[0].voter := votes[0].cert];
      assert AuthenticVote(u, w, votes[0]);
      AppliedVotesAuthentic(u, w, h, view, next, votes[1..]);
    }
  }

  lemma TallyKeepsStore(u: Setup, w: World, c: Core, vote: Vote)
    requires StoreInv(u, w, c) && ParkedInv(u, w, c) && AuthenticVote(u, w, vote)
    requires vote.blockHash in c.blockCache && vote.voter !in c.blockCache[vote.blockHash].selfQc.signs
    ensures StoreInv(u, w, Tally(c, vote))
  {
    var d, h := Tally(c, vote), vote.blockHash;
    var qc := c.blockCache[h].selfQc;
    assert StoredAt(u, w, c, h);
    AppliedVotesAuthentic(u, w, h, qc.viewNumber, qc.signs[vote.voter := vote.cert], Parked(c, h));
    forall x | x in d.blockCache
      ensures StoredAt(u, w, d, x)
    {
      assert StoredAt(u, w, c, x);
    }
  }

  lemma TallyKeeps(u: Setup, w: World, c: Core, vote: Vote)
    requires CoreInv(u, w, c) && AuthenticVote(u, w, vote) && vote.blockHash in c.blockCache
    requires vote.voter !in c.blockCache[vote.blockHash].selfQc.signs
    ensures CoreInv(u, w, Tally(c, vote))
  {
    TallyKeepsStore(u, w, c, vote);
    Reassemble(u, w, c, Tally(c, vote));
  }

  lemma VoteKeeps(u: Setup, w: World, r: ReplicaId, c: Core, vote: Vote)
    requires Sound(u) && CoreInv(u, w, c) && AuthenticVote(u, w, vote)
    ensures var d := OnProposalVote(EnvOf(u, r), c, vote).core;
            CoreInv(u, w, d) && d.signed == c.signed
  {
    var env := EnvOf(u, r);
    if vote.blockHash !in c.blockCache {
      ParkKeeps(u, w, c, vote);
    } else if |c.blockCache[vote.blockHash].selfQc.signs| < GetQuorumSize(u.metadata) &&
              vote.voter !in c.blockCache[vote.blockHash].selfQc.signs {
      var t := Tally(c, vote);
      TallyKeeps(u, w, c, vote);
      var block := t.blockCache[vote.blockHash];
      assert StoredAt(u, w, t, vote.blockHash);
      if QcVerifies(env, block.selfQc) {
        VerifiedIsCertified(u, w, r, block.selfQc);
      }
      HighestKeeps(u, w, env, t, block, block.selfQc);
      NotifyKeeps(u, w, UpdateHighestQC(env, t, block, block.selfQc), QcFinishEvent(block.proposer, block.selfQc));
    }
  }

  lemma ParkKeeps(u: Setup, w: World, c: Core, vote: Vote)
    requires CoreInv(u, w, c) && AuthenticVote(u, w, vote)
    ensures CoreInv(u, w, AddVoteMsg(c, vote))
  {
    var d := AddVoteMsg(c, vote);
    forall h | h in d.blockCache
      ensures StoredAt(u, w, d, h)
    {
      assert StoredAt(u, w, c, h);
    }
    forall h, i | h in d.voteSet && 0 <= i < |d.voteSet[h]|
      ensures d.voteSet[h][i].blockHash == h && AuthenticVote(u, w, d.voteSet[h][i])
    {
      if h == vote.blockHash && i < |Parked(c, h)| {
        assert d.voteSet[h][i] == c.voteSet[h][i];
      }
    }
    Reassemble(u, w, c, d);
  }

  // ---------------------------------------------------------------------------
  // Proposals

  /** The world after a handler of `r` ran: its ballots are what the core has signed. */
  function WorldAfter(w: World, r: ReplicaId, d: Core): World {
    w.(ballots := w.ballots[r := d.signed])
  }

  lemma AbsorbKeeps(u: Setup, w: World, env: Env, c: Core, block: Block)
    requires TreeInv(u, w) && CoreInv(u, w, c) && env.digest == u.digest && Admissible(w.tree, G(u), env, c, block)
    requires GetBlockHash(u.digest, block) == block.selfQc.blockHash && Authentic(u, w, block.selfQc)
    ensures var o := Absorb(env, c, block);
            && CoreInv(u, w, o.core) && Rises(w.tree, c, o.core)
            && o.core.signed == c.signed && o.core.voteHeight == c.voteHeight
            && (o.ok ==> (LockBound(w.tree, block.selfQc.blockHash) <= HeightOf(w.tree, o.core.lockedQC) <==>
                            LockReady(w.tree, StoreBlock(c, block), block)))
  {
    StoreKeeps(u, w, c, block);
    UpdateKeeps(u, w, env, StoreBlock(c, block), block);
  }

  /** An accepted block is signed and the vote handed on. */
  lemma SendVoteKeeps(u: Setup, w: World, r: ReplicaId, c: Core, prop: Proposal)
    requires Sound(u) && WorldInv(u, w) && r in w.ballots && c.signed == w.ballots[r] && CoreInv(u, w, c)
    requires prop.block.selfQc.blockHash in w.tree && w.tree[prop.block.selfQc.blockHash] == NodeOf(prop.block)
    requires prop.block.selfQc.blockHash != G(u) && Judge(c, prop.block).Raise?
    requires LockBound(w.tree, prop.block.selfQc.blockHash) <= HeightOf(w.tree, c.lockedQC)
    ensures var d := SendVote(EnvOf(u, r), c.(voteHeight := prop.block.height), prop);
            var v := WorldAfter(w, r, d);
            Grows(w, v) && WorldInv(u, v) && CoreInv(u, v, d)
  {
    var env, h := EnvOf(u, r), prop.block.selfQc.blockHash;
    CoreIsPlaced(u, w, c);
    JudgeIsSafeNode(w.tree, G(u), c, prop.block);
    SignKeeps(u, w, r, c, h);
    var v := WithBallot(w, r, Ballot(h, c.lockedQC.blockHash));
    NotifyKeeps(u, v, Sign(c.(voteHeight := prop.block.height), h),
                ReceiveProposalEvent(prop, VoteProposal(env, prop.viewNumber, h)));
    assert WorldAfter(w, r, SendVote(env, c.(voteHeight := prop.block.height), prop)) == v;
  }

  /** The handler sends a vote for the block. */
  predicate Votes(env: Env, rule: VoteRule, c: Core, block: Block) {
    var o := Absorb(env, c, block);
    o.ok && (Judge(o.core, block).Raise? || (rule.AsWritten? && Judge(o.core, block).Leave?))
  }

  /** If it does, the block was signed before, or the vote rule accepts it and the lock is where it calls for. */
  predicate OrderlyVote(t: Tree, env: Env, rule: VoteRule, c: Core, block: Block) {
    Votes(env, rule, c, block) ==>
      HasBallot(c, block.selfQc.blockHash) || (Accepts(env, c, block) && LockReady(t, StoreBlock(c, block), block))
  }

  lemma SignedIsLow(w: World, c: Core, h: Hash)
    requires VoteInv(w, c) && HasBallot(c, h)
    ensures h in w.tree && w.tree[h].height <= c.voteHeight
  {
  }

  /** A vote for a block that was signed before. */
  lemma RepeatKeeps(u: Setup, w: World, r: ReplicaId, c: Core, prop: Proposal)
    requires CoreInv(u, w, c) && HasBallot(c, prop.block.selfQc.blockHash)
    ensures var d := SendVote(EnvOf(u, r), c, prop); CoreInv(u, w, d) && d.signed == c.signed
  {
    NotifyKeeps(u, w, c, ReceiveProposalEvent(prop, VoteProposal(EnvOf(u, r), prop.viewNumber, prop.block.selfQc.blockHash)));
  }

  /** What the handler comes to once the block is absorbed. */
  lemma VoteOrNot(env: Env, rule: VoteRule, c: Core, prop: Proposal, o: Outcome)
    requires o == Absorb(env, c, prop.block)
    ensures var d := OnReceiveProposal(env, rule, c, prop).core;
            d == if !Votes(env, rule, c, prop.block) then o.core
                 else if Judge(o.core, prop.block).Raise? then SendVote(env, o.core.(voteHeight := prop.block.height), prop)
                 else SendVote(env, o.core, prop)
  {
  }

  /** A delivered block of the tree: the handler keeps everything, whether or not it votes. */
  lemma ReceiveKeeps(u: Setup, w: World, r: ReplicaId, rule: VoteRule, c: Core, prop: Proposal)
    requires Sound(u) && WorldInv(u, w) && r in w.ballots && c.signed == w.ballots[r] && CoreInv(u, w, c)
    requires Admissible(w.tree, G(u), EnvOf(u, r), c, prop.block)
    requires GetBlockHash(u.digest, prop.block) == prop.block.selfQc.blockHash && Authentic(u, w, prop.block.selfQc)
    requires OrderlyVote(w.tree, EnvOf(u, r), rule, c, prop.block)
    ensures var d := OnReceiveProposal(EnvOf(u, r), rule, c, prop).core;
            var v := WorldAfter(w, r, d);
            Grows(w, v) && WorldInv(u, v) && CoreInv(u, v, d)
  {
    var env, block := EnvOf(u, r), prop.block;
    AbsorbKeeps(u, w, env, c, block);
    var o := Absorb(env, c, block);
    VoteOrNot(env, rule, c, prop, o);
    if !Votes(env, rule, c, block) {
      assert WorldAfter(w, r, o.core) == w;
    } else if HasBallot(o.core, block.selfQc.blockHash) {
      SignedIsLow(w, o.core, block.selfQc.blockHash);
      RepeatKeeps(u, w, r, o.core, prop);
      assert WorldAfter(w, r, SendVote(env, o.core, prop)) == w;
    } else {
      SendVoteKeeps(u, w, r, o.core, prop);
    }
  }

  /** The self vote of a proposer whose lock is in place. */
  lemma SelfVoteKeeps(u: Setup, w: World, r: ReplicaId, c: Core, curView: int, block: Block)
    requires Sound(u) && WorldInv(u, w) && r in w.ballots && c.signed == w.ballots[r] && CoreInv(u, w, c)
    requires var h := block.selfQc.blockHash;
             && h in w.tree && h != G(u) && w.tree[h] == NodeOf(block) && h in c.blockCache
             && LockBound(w.tree, h) <= HeightOf(w.tree, c.lockedQC)
    requires block.justify == Some(c.genericQC) && c.voteHeight < block.height
    ensures var o := SelfVote(EnvOf(u, r), c, curView, block);
            var v := WorldAfter(w, r, o.core);
            Grows(w, v) && WorldInv(u, v) && CoreInv(u, v, o.core)
  {
    var env, h := EnvOf(u, r), block.selfQc.blockHash;
    SelfVoteIsSafe(w.tree, G(u), c, h);
    SignKeeps(u, w, r, c, h);
    var voted := Sign(c.(voteHeight := block.height), h);
    var v := WithBallot(w, r, Ballot(h, c.lockedQC.blockHash));
    OwnVoteAuthentic(u, v, r, env, curView, h);
    VoteKeeps(u, v, r, voted, VoteProposal(env, curView, h));
    var t := OnProposalVote(env, voted, VoteProposal(env, curView, h));
    if t.ok {
      NotifyKeeps(u, v, t.core, ProposeEvent(Proposal(curView, t.core.blockCache[h])));
    }
    assert WorldAfter(w, r, t.core) == v;
  }

  /** Storing the new block and updating with it. */
  lemma LeafUpdateKeeps(u: Setup, w: World, env: Env, c: Core, block: Block)
    requires TreeInv(u, w) && CoreInv(u, w, c) && env.digest == u.digest && block.justify == Some(c.genericQC)
    requires block.selfQc.blockHash in w.tree && w.tree[block.selfQc.blockHash] == NodeOf(block)
    requires block.selfQc.blockHash != G(u) && block.selfQc.signs == map[]
    requires GetBlockHash(u.digest, block) == block.selfQc.blockHash
    ensures var o := Update(env, StoreBlock(c, block), block);
            && CoreInv(u, w, o.core) && o.core.genericQC == c.genericQC
            && (o.ok ==> (LockBound(w.tree, block.selfQc.blockHash) <= HeightOf(w.tree, o.core.lockedQC) <==>
                            LockReady(w.tree, StoreBlock(c, block), block)))
  {
    StoreKeeps(u, w, c, block);
    UpdateKeeps(u, w, env, StoreBlock(c, block), block);
    GenericUnmoved(env, StoreBlock(c, block), block);
  }

  /** If the proposer gets to vote for its leaf, the lock is where the leaf calls for. */
  predicate OrderlyLeaf(t: Tree, env: Env, c: Core, block: Block) {
    Update(env, StoreBlock(c, block), block).ok ==> LockReady(t, StoreBlock(c, block), block)
  }

  lemma ProposeLeafKeeps(u: Setup, w: World, r: ReplicaId, c: Core, curView: int, block: Block)
    requires Sound(u) && WorldInv(u, w) && r in w.ballots && c.signed == w.ballots[r] && CoreInv(u, w, c)
    requires block.justify == Some(c.genericQC) && block.selfQc.signs == map[] && c.voteHeight < block.height
    requires block.selfQc.blockHash in w.tree && w.tree[block.selfQc.blockHash] == NodeOf(block)
    requires block.selfQc.blockHash != G(u) && GetBlockHash(u.digest, block) == block.selfQc.blockHash
    requires OrderlyLeaf(w.tree, EnvOf(u, r), c, block)
    ensures var d := ProposeLeaf(EnvOf(u, r), c, curView, block).core;
            var v := WorldAfter(w, r, d);
            Grows(w, v) && WorldInv(u, v) && CoreInv(u, v, d)
  {
    var env := EnvOf(u, r);
    LeafUpdateKeeps(u, w, env, c, block);
    var o := Update(env, StoreBlock(c, block), block);
    if o.ok {
      SelfVoteKeeps(u, w, r, o.core, curView, block);
    } else {
      assert WorldAfter(w, r, o.core) == w;
    }
  }

  /** A proposal on the highest certificate, its block already in the tree. */
  lemma ProposeKeeps(u: Setup, w: World, r: ReplicaId, c: Core, curView: int, cmds: Bytes, timestamp: int)
    requires Sound(u) && WorldInv(u, w) && r in w.ballots && c.signed == w.ballots[r] && CoreInv(u, w, c)
    requires NewLeaf(EnvOf(u, r), c, curView, c.genericQC.blockHash, cmds, timestamp).Some?
    requires var block := NewLeaf(EnvOf(u, r), c, curView, c.genericQC.blockHash, cmds, timestamp).value;
             && block.selfQc.blockHash in w.tree && w.tree[block.selfQc.blockHash] == NodeOf(block)
             && block.selfQc.blockHash != G(u) && OrderlyLeaf(w.tree, EnvOf(u, r), c, block)
    ensures var d := OnPropose(EnvOf(u, r), c, curView, c.genericQC.blockHash, cmds, timestamp).core;
            var v := WorldAfter(w, r, d);
            Grows(w, v) && WorldInv(u, v) && CoreInv(u, v, d)
  {
    var block := NewLeaf(EnvOf(u, r), c, curView, c.genericQC.blockHash, cmds, timestamp).value;
    ProposeLeafKeeps(u, w, r, c, curView, block);
  }

  lemma OwnVoteAuthentic(u: Setup, v: World, r: ReplicaId, env: Env, curView: int, h: Hash)
    requires r in v.ballots && |v.ballots[r]| > 0 && v.ballots[r][|v.ballots[r]| - 1].hash == h && env.id == r
    ensures AuthenticVote(u, v, VoteProposal(env, curView, h))
  {
    assert HasSigned(v, r, h);
  }
}
