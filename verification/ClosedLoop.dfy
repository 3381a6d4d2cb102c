/** The whole loop with nobody's help: an honest leader proposes blocks of its own making, the other honest
    replicas vote for what it announces, the leader counts their votes to a certificate and builds the
    next block on it. */
module ClosedLoop {
  import opened Types
  import opened Quorum
  import opened Entity
  import opened Replica
  import opened Heights
  import opened World
  import opened EveryRun
  import opened DecideRuns
  import opened Progress

  // ---------------------------------------------------------------------------
  // The leader

  function WithVotes(block: Block, voters: set<ReplicaId>): Block {
    block.(selfQc := block.selfQc.(signs := VotesOf(voters, block.selfQc.blockHash)))
  }

  /** The highest certificate is for a stored block below `b`. */
  predicate HighBelow(d: Core, b: Block) {
    && d.genericQC.blockHash in d.blockCache && d.genericQC.blockHash != b.selfQc.blockHash
    && d.blockCache[d.genericQC.blockHash].height < b.height
  }

  /** A replica has `leaf` on the chain below and holds the votes of `voters` for it. As soon as these are a quorum
      its highest certificate is the leaf's own, and it has announced that certificate. */
  predicate Collects(env: Env, below: seq<Block>, leaf: Block, voters: set<ReplicaId>, d: Core)
    requires below != []
  {
    && Caught(below + [WithVotes(leaf, voters)], |below|, d) && d.voteSet == map[]
    && (if |voters| >= GetQuorumSize(env.metadata)
        then && d.genericQC == WithVotes(leaf, voters).selfQc
             && QcFinishEvent(leaf.proposer, WithVotes(leaf, voters).selfQc) in d.events
        else HighBelow(d, leaf))
  }

  /** Another tally of the last block leaves the chain linear. */
  lemma LinearWithVotes(env: Env, below: seq<Block>, leaf: Block, voters: set<ReplicaId>)
    requires below != [] && Linear(env, below + [leaf])
    ensures Linear(env, below + [WithVotes(leaf, voters)])
  {
    var c, d := below + [leaf], below + [WithVotes(leaf, voters)];
    assert Preimage(WithVotes(leaf, voters)) == Preimage(leaf);
    forall i | 0 <= i < |d|
      ensures LinkedTo(env, d, i)
    {
      assert LinkedTo(env, c, i);
    }
    forall i, j | 0 <= i < j < |d|
      ensures ApartAt(d, i, j)
    {
      assert ApartAt(c, i, j);
    }
  }

  lemma CaughtWithVotes(below: seq<Block>, leaf: Block, voters: set<ReplicaId>, more: set<ReplicaId>, s: Core, d: Core)
    requires below != [] && Caught(below + [WithVotes(leaf, voters)], |below|, s)
    requires forall i :: 0 <= i < |below| ==> below[i].selfQc.blockHash != leaf.selfQc.blockHash
    requires d.blockCache == s.blockCache[leaf.selfQc.blockHash := WithVotes(leaf, more)]
    requires d.execQC == s.execQC && d.lockedQC == s.lockedQC && d.voteHeight == s.voteHeight && d.signed == s.signed
    requires Decided(d.events) == Decided(s.events)
    ensures Caught(below + [WithVotes(leaf, more)], |below|, d)
  {
    var b, c, n := below + [WithVotes(leaf, voters)], below + [WithVotes(leaf, more)], |below|;
    assert forall i :: 0 <= i < n ==> b[i] == below[i] && c[i] == below[i];
    assert forall i :: 0 <= i <= n ==> b[i].selfQc.blockHash == c[i].selfQc.blockHash;
    SameStart(below, WithVotes(leaf, voters), WithVotes(leaf, more), n);
  }

  lemma SameStart<T>(below: seq<T>, x: T, y: T, n: nat)
    requires n == |below|
    ensures n >= 3 ==> (below + [x])[1..n - 2] == (below + [y])[1..n - 2]
  {
  }

  /** An open tally with nothing parked takes one more vote. */
  lemma TallyTakes(d: Core, leaf: Block, voters: set<ReplicaId>, vote: Vote)
    requires d.voteSet == map[] && vote.blockHash == leaf.selfQc.blockHash && vote.voter !in voters
    requires vote.cert == PartCert(vote.voter, Signature(vote.voter, vote.blockHash))
    requires vote.blockHash in d.blockCache && d.blockCache[vote.blockHash] == WithVotes(leaf, voters)
    ensures Tally(d, vote) == d.(blockCache := d.blockCache[vote.blockHash := WithVotes(leaf, voters + {vote.voter})])
  {
    var h := vote.blockHash;
    assert VotesOf(voters, h)[vote.voter := vote.cert] == VotesOf(voters + {vote.voter}, h);
    assert d.voteSet - {h} == map[];
  }

  lemma VoterCount(voters: set<ReplicaId>, h: Hash)
    ensures |VotesOf(voters, h)| == |voters|
  {
    assert VotesOf(voters, h).Keys == voters;
  }

  /** What the handler does with a vote for an open tally. */
  lemma CountEffect(env: Env, d: Core, leaf: Block, voters: set<ReplicaId>, vote: Vote)
    requires d.voteSet == map[] && vote.blockHash == leaf.selfQc.blockHash && vote.voter !in voters
    requires vote.cert == PartCert(vote.voter, Signature(vote.voter, vote.blockHash))
    requires vote.blockHash in d.blockCache && d.blockCache[vote.blockHash] == WithVotes(leaf, voters)
    requires |voters| < GetQuorumSize(env.metadata) && d.genericQC.blockHash in d.blockCache
    requires d.genericQC.blockHash != vote.blockHash && leaf.height > d.blockCache[d.genericQC.blockHash].height
    requires |voters| + 1 >= GetQuorumSize(env.metadata) ==> QcVerifies(env, WithVotes(leaf, voters + {vote.voter}).selfQc)
    ensures var o, more := OnProposalVote(env, d, vote), WithVotes(leaf, voters + {vote.voter});
            && o.ok && NoDecision(d.events, o.core.events)
            && (|voters| + 1 >= GetQuorumSize(env.metadata) ==>
                  QcFinishEvent(leaf.proposer, more.selfQc) in o.core.events)
            && o.core == d.(blockCache := d.blockCache[vote.blockHash := more], events := o.core.events,
                            genericQC := if |voters| + 1 >= GetQuorumSize(env.metadata) then more.selfQc else d.genericQC)
  {
    TallyTakes(d, leaf, voters, vote);
    VoterCount(voters, vote.blockHash);
    VoterCount(voters + {vote.voter}, vote.blockHash);
  }

  lemma LeafIsStored(below: seq<Block>, leaf: Block, voters: set<ReplicaId>, d: Core)
    requires below != [] && Caught(below + [WithVotes(leaf, voters)], |below|, d)
    ensures leaf.selfQc.blockHash in d.blockCache && d.blockCache[leaf.selfQc.blockHash] == WithVotes(leaf, voters)
  {
    assert (below + [WithVotes(leaf, voters)])[|below|] == WithVotes(leaf, voters);
  }

  /** The leader counts one more vote. */
  lemma CountsVote(u: Setup, leader: ReplicaId, below: seq<Block>, leaf: Block, voters: set<ReplicaId>, d: Core, r: ReplicaId, view: int)
    requires Sound(u) && below != [] && Linear(EnvOf(u, leader), below + [leaf])
    requires Collects(EnvOf(u, leader), below, leaf, voters, d) && |voters| < GetQuorumSize(u.metadata)
    requires r !in voters && voters + {r} <= u.replicas
    ensures var o := OnProposalVote(EnvOf(u, leader), d, VoteProposal(EnvOf(u, r), view, leaf.selfQc.blockHash));
            o.ok && Collects(EnvOf(u, leader), below, leaf, voters + {r}, o.core) && d.events <= o.core.events
  {
    var env, vote := EnvOf(u, leader), VoteProposal(EnvOf(u, r), view, leaf.selfQc.blockHash);
    LeafIsNew(env, below, leaf);
    LeafIsStored(below, leaf, voters, d);
    if |voters| + 1 >= GetQuorumSize(u.metadata) {
      VotesVerify(u, voters + {r}, WithVotes(leaf, voters + {r}).selfQc);
    }
    CountEffect(env, d, leaf, voters, vote);
    var e := OnProposalVote(env, d, vote).core;
    NoDecisionKeeps(d.events, e.events);
    CaughtWithVotes(below, leaf, voters, voters + {r}, d, e);
  }

  lemma LeafIsNew(env: Env, below: seq<Block>, leaf: Block)
    requires below != [] && Linear(env, below + [leaf])
    ensures forall i :: 0 <= i < |below| ==> below[i].selfQc.blockHash != leaf.selfQc.blockHash
  {
    var c := below + [leaf];
    forall i | 0 <= i < |below|
      ensures below[i].selfQc.blockHash != leaf.selfQc.blockHash
    {
      assert ApartAt(c, i, |below|);
    }
  }

  // ---------------------------------------------------------------------------
  // Its proposal

  /** A leader that is done with all blocks below and has certified the last one. */
  predicate Leads(below: seq<Block>, c: Core)
    requires below != []
  {
    Caught(below, |below| - 1, c) && c.voteSet == map[] && c.genericQC == below[|below| - 1].selfQc
  }

  lemma LeafContinues(env: Env, below: seq<Block>, leaf: Block)
    requires below != [] && Linear(env, below) && leaf.parentHash == below[|below| - 1].selfQc.blockHash
    requires leaf.height == |below| && GetBlockHash(env.digest, leaf) == leaf.selfQc.blockHash
    requires leaf.justify.Some? && leaf.justify.value.blockHash == leaf.parentHash
    requires forall i :: 0 <= i < |below| ==> below[i].selfQc.blockHash != leaf.selfQc.blockHash
    ensures Linear(env, below + [leaf])
  {
    var c := below + [leaf];
    forall i | 0 <= i < |c|
      ensures LinkedTo(env, c, i)
    {
      if i < |below| { assert LinkedTo(env, below, i); }
    }
    forall i, j | 0 <= i < j < |c|
      ensures ApartAt(c, i, j)
    {
      if j < |below| { assert ApartAt(below, i, j); }
    }
  }

  lemma LeafIsBuilt(env: Env, below: seq<Block>, c: Core, view: int, cmds: Bytes, timestamp: int)
    requires below != [] && Linear(env, below) && Leads(below, c)
    ensures var leaf := NewLeaf(env, c, view, c.genericQC.blockHash, cmds, timestamp);
            && leaf.Some? && leaf.value.selfQc.signs == map[] && leaf.value.height == |below| && leaf.value.cmds == cmds
            && leaf.value.parentHash == below[|below| - 1].selfQc.blockHash
            && leaf.value.justify == Some(below[|below| - 1].selfQc)
            && GetBlockHash(env.digest, leaf.value) == leaf.value.selfQc.blockHash
  {
    assert LinkedTo(env, below, |below| - 1);
    var leaf := NewLeaf(env, c, view, c.genericQC.blockHash, cmds, timestamp).value;
    assert Preimage(leaf) == Preimage(leaf.(selfQc := QuorumCert(view, [], map[])));
  }

  lemma CaughtPrefix(below: seq<Block>, leaf: Block, n: nat, c: Core)
    requires n < |below| && Caught(below, n, c)
    ensures Caught(below + [leaf], n, c)
  {
    var d := below + [leaf];
    assert forall i :: 0 <= i <= n ==> d[i] == below[i];
    if n >= 3 { assert d[1..n - 2] == below[1..n - 2]; }
  }

  /** Storing the next block of a chain, updating with it and signing it. */
  lemma SignsNext(env: Env, chain: seq<Block>, n: nat, c: Core)
    requires Linear(env, chain) && n + 1 < |chain| && Caught(chain, n, c)
    ensures var o := Update(env, StoreBlock(c, chain[n + 1]), chain[n + 1]);
            && o.ok && KnowsChain(StoreBlock(c, chain[n + 1]), chain[n + 1])
            && Caught(chain, n + 1, Sign(o.core.(voteHeight := n + 1), chain[n + 1].selfQc.blockHash))
  {
    HasAllNext(chain, n, c);
    NextKnowsChain(env, chain, n, c);
    UpdateFeeds(env, chain, n, c);
    UpdateNext(env, chain, n, StoreBlock(c, chain[n + 1]));
    var o := Update(env, StoreBlock(c, chain[n + 1]), chain[n + 1]);
    SignIsVoted(chain, n, c, o.core);
  }

  lemma SignIsVoted(chain: seq<Block>, n: nat, c: Core, d: Core)
    requires Distinct(chain) && n + 1 < |chain| && Voted(chain, n, c) && d.signed == c.signed && Fed(chain, n + 1, d)
    requires d.lockedQC.blockHash == chain[Back(n + 1, 2)].selfQc.blockHash
    ensures Caught(chain, n + 1, Sign(d.(voteHeight := n + 1), chain[n + 1].selfQc.blockHash))
  {
    NotYetSigned(chain, n, c);
    VotedNext(chain, n, c, Sign(d.(voteHeight := n + 1), chain[n + 1].selfQc.blockHash), d.lockedQC.blockHash);
  }

  /** Storing the leaf and updating with it: the leader is ready to vote. */
  lemma LeafUpdates(env: Env, below: seq<Block>, c: Core, leaf: Block)
    requires below != [] && Linear(env, below + [leaf]) && Leads(below, c) && leaf.selfQc.signs == map[]
    requires leaf.justify == Some(c.genericQC) && GetQuorumSize(env.metadata) > 0 && leaf.height == |below|
    ensures var o := Update(env, StoreBlock(c, leaf), leaf);
            && o.ok && KnowsChain(StoreBlock(c, leaf), leaf) && c.events <= o.core.events
            && Collects(env, below, leaf, {}, Sign(o.core.(voteHeight := leaf.height), leaf.selfQc.blockHash))
  {
    var chain, n, s1 := below + [leaf], |below| - 1, StoreBlock(c, leaf);
    assert chain[n + 1] == leaf;
    CaughtPrefix(below, leaf, n, c);
    SignsNext(env, chain, n, c);
    GenericUnmoved(env, s1, leaf);
    UpdateNotifies(env, s1, leaf);
    assert WithVotes(leaf, {}) == leaf;
    LeafIsNew(env, below, leaf);
    assert LinkedTo(env, chain, n) && chain[n] == below[n];
  }

  /** The leader has stored its block with its own vote and has announced it so, after the events of `c`. */
  predicate Opened(env: Env, below: seq<Block>, c: Core, view: int, leaf: Block, d: Core)
    requires below != []
  {
    && Collects(env, below, leaf, {env.id}, d) && c.events <= d.events
    && d.events != [] && d.events[|d.events| - 1] == ProposeEvent(Proposal(view, WithVotes(leaf, {env.id})))
  }

  /** The leader proposes: it has its own vote, and announces the block with it. */
  lemma LeaderProposes(u: Setup, leader: ReplicaId, below: seq<Block>, c: Core, view: int, leaf: Block)
    requires Sound(u) && GetQuorumSize(u.metadata) > 0 && leader in u.replicas
    requires below != [] && Linear(EnvOf(u, leader), below + [leaf]) && Leads(below, c)
    requires leaf.selfQc.signs == map[] && leaf.justify == Some(c.genericQC) && leaf.height == |below|
    ensures Opened(EnvOf(u, leader), below, c, view, leaf, ProposeLeaf(EnvOf(u, leader), c, view, leaf).core)
    ensures KnowsChain(StoreBlock(c, leaf), leaf)
  {
    LeafUpdates(EnvOf(u, leader), below, c, leaf);
    OwnVote(u, leader, below, c, Update(EnvOf(u, leader), StoreBlock(c, leaf), leaf).core, view, leaf);
  }

  /** The leader counts its own vote and announces the block. */
  lemma OwnVote(u: Setup, leader: ReplicaId, below: seq<Block>, before: Core, c: Core, view: int, leaf: Block)
    requires Sound(u) && GetQuorumSize(u.metadata) > 0 && leader in u.replicas && below != []
    requires Linear(EnvOf(u, leader), below + [leaf]) && leaf.selfQc.blockHash in c.blockCache && before.events <= c.events
    requires Collects(EnvOf(u, leader), below, leaf, {}, Sign(c.(voteHeight := leaf.height), leaf.selfQc.blockHash))
    ensures Opened(EnvOf(u, leader), below, before, view, leaf, SelfVote(EnvOf(u, leader), c, view, leaf).core)
  {
    OwnVoteCounts(u, leader, below, Sign(c.(voteHeight := leaf.height), leaf.selfQc.blockHash), view, leaf);
  }

  lemma OwnVoteCounts(u: Setup, leader: ReplicaId, below: seq<Block>, voted: Core, view: int, leaf: Block)
    requires Sound(u) && GetQuorumSize(u.metadata) > 0 && leader in u.replicas && below != []
    requires Linear(EnvOf(u, leader), below + [leaf]) && Collects(EnvOf(u, leader), below, leaf, {}, voted)
    ensures var o := OnProposalVote(EnvOf(u, leader), voted, VoteProposal(EnvOf(u, leader), view, leaf.selfQc.blockHash));
            var e := ProposeEvent(Proposal(view, WithVotes(leaf, {leader})));
            && o.ok && leaf.selfQc.blockHash in o.core.blockCache && voted.events <= o.core.events
            && o.core.blockCache[leaf.selfQc.blockHash] == WithVotes(leaf, {leader})
            && Opened(EnvOf(u, leader), below, voted, view, leaf, o.core.(events := o.core.events + [e]))
  {
    var env := EnvOf(u, leader);
    assert {} + {leader} == {leader};
    CountsVote(u, leader, below, leaf, {}, voted, leader, view);
    Announces(env, below, leaf, {leader}, OnProposalVote(env, voted, VoteProposal(env, view, leaf.selfQc.blockHash)).core, view);
  }

  lemma Announces(env: Env, below: seq<Block>, leaf: Block, voters: set<ReplicaId>, d: Core, view: int)
    requires below != [] && Collects(env, below, leaf, voters, d)
    ensures var h := leaf.selfQc.blockHash;
            && h in d.blockCache && d.blockCache[h] == WithVotes(leaf, voters)
            && Collects(env, below, leaf, voters, d.(events := d.events + [ProposeEvent(Proposal(view, d.blockCache[h]))]))
  {
    var chain := below + [WithVotes(leaf, voters)];
    assert chain[|below|] == WithVotes(leaf, voters);
    CaughtNotifies(chain, |below|, d, ProposeEvent(Proposal(view, WithVotes(leaf, voters))));
  }

  lemma CaughtNotifies(chain: seq<Block>, n: nat, d: Core, e: Event)
    requires n < |chain| && Caught(chain, n, d) && !e.DecideEvent?
    ensures Caught(chain, n, d.(events := d.events + [e]))
  {
    NoDecisionKeeps(d.events, d.events + [e]);
  }
}
