/** Runs of the whole loop: for any sequence of commands an honest leader and the other honest replicas reach
    a state in which all of them have decided these commands in order, all but the last three. */
module LoopRuns {
  import opened Types
  import opened Quorum
  import opened Entity
  import opened Replica
  import opened BlockTree
  import opened Heights
  import opened World
  import opened System
  import opened OrderlyRuns
  import opened DecideRuns
  import opened Progress
  import opened Fork
  import opened ClosedLoop

  /** The hash of the i-th block of a ledger of commands: it covers the previous hash, the height and the command. */
  function LedgerHash(digest: Bytes -> Hash, cmds: seq<Bytes>, i: nat): Hash
    requires i <= |cmds|
  {
    if i == 0 then GenesisHash(digest)
    else digest(LedgerHash(digest, cmds, i - 1) + LittleEndian(Uint64(i), 8) + cmds[i - 1])
  }

  /** The hash function does not collide on this ledger. */
  predicate NoRepeat(digest: Bytes -> Hash, cmds: seq<Bytes>) {
    forall i, j :: 0 <= i < j <= |cmds| ==> LedgerHash(digest, cmds, i) != LedgerHash(digest, cmds, j)
  }

  /** The blocks carry the commands. */
  predicate Carries(digest: Bytes -> Hash, cmds: seq<Bytes>, chain: seq<Block>) {
    |chain| <= |cmds| + 1 &&
    forall i :: 0 <= i < |chain| ==>
      chain[i].selfQc.blockHash == LedgerHash(digest, cmds, i) && (i > 0 ==> chain[i].cmds == cmds[i - 1])
  }

  /** The same blocks with other tallies. */
  predicate SameBlocks(chain: seq<Block>, full: seq<Block>) {
    |full| == |chain| && forall i :: 0 <= i < |chain| ==>
      full[i] == chain[i].(selfQc := full[i].selfQc) && full[i].selfQc.blockHash == chain[i].selfQc.blockHash
  }

  /** All honest replicas have the chain as it was announced, and the leader has it with its certificates. */
  predicate Settled(u: Setup, leader: ReplicaId, chain: seq<Block>, full: seq<Block>, s: System) {
    && chain != [] && SameBlocks(chain, full) && Linear(EnvOf(u, 0), chain) && Linear(EnvOf(u, 0), full)
    && s.cores.Keys == Honest(u) && leader in Honest(u)
    && OnTree(chain, |chain| - 1, s.tree) && OnlyChain(chain, s.tree)
    && Leads(full, s.cores[leader])
    && (forall r :: r in s.cores && r != leader ==> Caught(chain, |chain| - 1, s.cores[r]))
    && (|chain| == 1 || QcVerifies(EnvOf(u, 0), full[|chain| - 1].selfQc))
  }

  /** The leader has announced `leaf`; those in `done` have it, and the votes of `voters` are counted. */
  predicate Voting(u: Setup, leader: ReplicaId, chain: seq<Block>, full: seq<Block>, leaf: Block,
                   done: set<ReplicaId>, voters: set<ReplicaId>, s: System) {
    var announced := chain + [WithVotes(leaf, {leader})];
    && chain != [] && SameBlocks(chain, full) && Linear(EnvOf(u, 0), announced) && Linear(EnvOf(u, 0), full + [leaf])
    && s.cores.Keys == Honest(u) && leader in Honest(u) && done <= Honest(u) - {leader}
    && leader in voters && voters <= done + {leader}
    && OnTree(announced, |chain|, s.tree) && OnlyChain(announced, s.tree)
    && Collects(EnvOf(u, leader), full, leaf, voters, s.cores[leader])
    && (forall r :: r in s.cores && r != leader ==>
          Caught(announced, if r in done then |chain| else |chain| - 1, s.cores[r]))
    && leaf.justify == Some(full[|chain| - 1].selfQc)
    && (|chain| == 1 || QcVerifies(EnvOf(u, 0), full[|chain| - 1].selfQc))
    && ProposeEvent(Proposal(|chain|, WithVotes(leaf, {leader}))) in s.cores[leader].events
  }

  /** The leader proposes the commands, the honest replicas receive what it announced, and it counts their votes. */
  predicate LoopAction(u: Setup, leader: ReplicaId, a: Action, es: seq<Event>) {
    match a
    case Propose(r, _, _, _) => r == leader
    case Deliver(r, prop) => r in Honest(u) && ProposeEvent(prop) in es
    case CastVote(r, vote) => r == leader && vote.voter in Honest(u)
    case _ => false
  }

  predicate LoopRun(u: Setup, leader: ReplicaId, run: seq<Action>, es: seq<Event>) {
    forall i :: 0 <= i < |run| ==> LoopAction(u, leader, run[i], es)
  }

  /** An orderly run of such actions leads to `s`. */
  ghost predicate Made(u: Setup, rule: VoteRule, leader: ReplicaId, run: seq<Action>, s: System) {
    && Exec(u, rule, run) == Some(s) && Orderly(u, rule, run)
    && leader in s.cores && LoopRun(u, leader, run, s.cores[leader].events)
  }

  /** The commands proposed in a run, in order. */
  function Proposed(run: seq<Action>): seq<Bytes> {
    if run == [] then []
    else
      var a := run[|run| - 1];
      Proposed(run[..|run| - 1]) + if a.Propose? then [a.cmds] else []
  }

  lemma ProposedMore(run: seq<Action>, a: Action)
    ensures Proposed(run + [a]) == Proposed(run) + if a.Propose? then [a.cmds] else []
  {
    assert (run + [a])[..|run|] == run;
  }

  lemma ActionStays(u: Setup, leader: ReplicaId, a: Action, es: seq<Event>, fs: seq<Event>)
    requires LoopAction(u, leader, a, es) && es <= fs
    ensures LoopAction(u, leader, a, fs)
  {
    if a.Deliver? { EventStays(ProposeEvent(a.prop), es, fs); }
  }

  lemma EventStays(e: Event, es: seq<Event>, fs: seq<Event>)
    requires e in es && es <= fs
    ensures e in fs
  {
    var i :| 0 <= i < |es| && es[i] == e;
    assert fs[i] == e;
  }

  lemma RunGrows(u: Setup, leader: ReplicaId, run: seq<Action>, a: Action, es: seq<Event>, fs: seq<Event>)
    requires LoopRun(u, leader, run, es) && es <= fs && LoopAction(u, leader, a, fs)
    ensures LoopRun(u, leader, run + [a], fs)
  {
    forall i | 0 <= i < |run|
      ensures LoopAction(u, leader, run[i], fs)
    {
      ActionStays(u, leader, run[i], es, fs);
    }
  }

  /** The certificate verifies, the leader announced it, and only honest replicas signed it. */
  predicate Counted(u: Setup, proposer: ReplicaId, qc: QuorumCert, es: seq<Event>) {
    qc.signs.Keys <= Honest(u) && QcVerifies(EnvOf(u, 0), qc) && QcFinishEvent(proposer, qc) in es
  }

  /** Every block justifies the one before by the certificate that the leader counted for it. */
  predicate Chained(u: Setup, chain: seq<Block>, full: seq<Block>, es: seq<Event>) {
    |full| == |chain| && forall i :: 1 <= i < |chain| ==>
      chain[i].justify == Some(full[i - 1].selfQc) && Counted(u, full[i].proposer, full[i].selfQc, es)
  }

  lemma ChainedNext(u: Setup, chain: seq<Block>, full: seq<Block>, es: seq<Event>, b: Block, c: Block, fs: seq<Event>)
    requires chain != [] && Chained(u, chain, full, es) && es <= fs && b.justify == Some(full[|chain| - 1].selfQc)
    requires Counted(u, c.proposer, c.selfQc, fs)
    ensures Chained(u, chain + [b], full + [c], fs)
  {
    forall i | 1 <= i < |chain|
      ensures Counted(u, full[i].proposer, full[i].selfQc, fs)
    {
      EventStays(QcFinishEvent(full[i].proposer, full[i].selfQc), es, fs);
    }
  }

  // ---------------------------------------------------------------------------
  // The proposal

  lemma TreeHasLeaf(chain: seq<Block>, leaf: Block, t: Tree)
    requires chain != [] && OnTree(chain, |chain| - 1, t) && OnlyChain(chain, t)
    requires forall i :: 0 <= i < |chain| ==> chain[i].selfQc.blockHash != leaf.selfQc.blockHash
    ensures leaf.selfQc.blockHash !in t
    ensures var d, v := chain + [leaf], t[leaf.selfQc.blockHash := NodeOf(leaf)];
            OnTree(d, |chain|, v) && OnlyChain(d, v)
  {
    var d, v := chain + [leaf], t[leaf.selfQc.blockHash := NodeOf(leaf)];
    if OfChain(chain, leaf.selfQc.blockHash) {
      assert false;
    }
    assert forall i :: 0 <= i < |chain| ==> d[i] == chain[i];
    forall h | h in v
      ensures OfChain(d, h)
    {
      if h in t {
        assert OfChain(chain, h);
        var i :| 0 <= i < |chain| && h == chain[i].selfQc.blockHash;
        assert d[i].selfQc.blockHash == h;
      } else {
        assert d[|chain|].selfQc.blockHash == h;
      }
    }
  }

  lemma LedgerGrows(digest: Bytes -> Hash, cmds: seq<Bytes>, chain: seq<Block>, leaf: Block)
    requires NoRepeat(digest, cmds) && Carries(digest, cmds, chain) && 1 <= |chain| <= |cmds|
    requires leaf.parentHash == chain[|chain| - 1].selfQc.blockHash && leaf.height == |chain|
    requires leaf.cmds == cmds[|chain| - 1] && GetBlockHash(digest, leaf) == leaf.selfQc.blockHash
    ensures Carries(digest, cmds, chain + [leaf])
    ensures forall i :: 0 <= i < |chain| ==> chain[i].selfQc.blockHash != leaf.selfQc.blockHash
  {
    LeafHash(digest, cmds, chain, leaf);
    CarriesNext(digest, cmds, chain, leaf);
    forall i | 0 <= i < |chain|
      ensures chain[i].selfQc.blockHash != leaf.selfQc.blockHash
    {
      assert LedgerHash(digest, cmds, i) != LedgerHash(digest, cmds, |chain|);
    }
  }

  lemma CarriesNext(digest: Bytes -> Hash, cmds: seq<Bytes>, chain: seq<Block>, leaf: Block)
    requires Carries(digest, cmds, chain) && 1 <= |chain| <= |cmds| && leaf.cmds == cmds[|chain| - 1]
    requires leaf.selfQc.blockHash == LedgerHash(digest, cmds, |chain|)
    ensures Carries(digest, cmds, chain + [leaf])
  {
    var longer := chain + [leaf];
    forall i | 0 <= i < |longer|
      ensures longer[i].selfQc.blockHash == LedgerHash(digest, cmds, i) && (i > 0 ==> longer[i].cmds == cmds[i - 1])
    {
      if i < |chain| { assert longer[i] == chain[i]; }
    }
  }

  lemma LeafHash(digest: Bytes -> Hash, cmds: seq<Bytes>, chain: seq<Block>, leaf: Block)
    requires Carries(digest, cmds, chain) && 1 <= |chain| <= |cmds|
    requires leaf.parentHash == chain[|chain| - 1].selfQc.blockHash && leaf.height == |chain|
    requires leaf.cmds == cmds[|chain| - 1] && GetBlockHash(digest, leaf) == leaf.selfQc.blockHash
    ensures leaf.selfQc.blockHash == LedgerHash(digest, cmds, |chain|)
  {
  }

  /** The leaf fits on both views of the chain. */
  lemma LeafFits(u: Setup, leader: ReplicaId, cmds: seq<Bytes>, chain: seq<Block>, full: seq<Block>, s: System, leaf: Block)
    requires Settled(u, leader, chain, full, s) && NoRepeat(u.digest, cmds) && Carries(u.digest, cmds, chain)
    requires |chain| <= |cmds| && leaf.cmds == cmds[|chain| - 1] && leaf.height == |chain|
    requires leaf.parentHash == chain[|chain| - 1].selfQc.blockHash && leaf.justify == Some(full[|chain| - 1].selfQc)
    requires GetBlockHash(u.digest, leaf) == leaf.selfQc.blockHash
    ensures Linear(EnvOf(u, 0), full + [leaf]) && Linear(EnvOf(u, 0), chain + [WithVotes(leaf, {leader})])
    ensures Carries(u.digest, cmds, chain + [WithVotes(leaf, {leader})]) && leaf.selfQc.blockHash !in s.tree
    ensures var announced, v := chain + [WithVotes(leaf, {leader})], s.tree[leaf.selfQc.blockHash := NodeOf(leaf)];
            OnTree(announced, |chain|, v) && OnlyChain(announced, v)
  {
    var announced := WithVotes(leaf, {leader});
    assert Preimage(announced) == Preimage(leaf);
    LedgerGrows(u.digest, cmds, chain, leaf);
    LedgerGrows(u.digest, cmds, chain, announced);
    LeafContinues(EnvOf(u, 0), full, leaf);
    LeafContinues(EnvOf(u, 0), chain, announced);
    TreeHasLeaf(chain, announced, s.tree);
  }

  /** The state after the leader's proposal. */
  lemma ProposalStartsVoting(u: Setup, leader: ReplicaId, chain: seq<Block>, full: seq<Block>, leaf: Block, s: System, t: System, d: Core)
    requires Settled(u, leader, chain, full, s) && leaf.justify == Some(full[|chain| - 1].selfQc)
    requires Linear(EnvOf(u, 0), full + [leaf]) && Linear(EnvOf(u, 0), chain + [WithVotes(leaf, {leader})])
    requires t == System(s.tree[leaf.selfQc.blockHash := NodeOf(leaf)], s.cores[leader := d])
    requires var announced := chain + [WithVotes(leaf, {leader})]; OnTree(announced, |chain|, t.tree) && OnlyChain(announced, t.tree)
    requires Collects(EnvOf(u, leader), full, leaf, {leader}, d)
    requires ProposeEvent(Proposal(|chain|, WithVotes(leaf, {leader}))) in d.events
    ensures Voting(u, leader, chain, full, leaf, {}, {leader}, t)
  {
    FollowersWait(leader, chain, WithVotes(leaf, {leader}), s);
  }

  lemma FollowersWait(leader: ReplicaId, chain: seq<Block>, b: Block, s: System)
    requires chain != [] && forall r :: r in s.cores && r != leader ==> Caught(chain, |chain| - 1, s.cores[r])
    ensures forall r :: r in s.cores && r != leader ==> Caught(chain + [b], |chain| - 1, s.cores[r])
  {
    forall r | r in s.cores && r != leader
      ensures Caught(chain + [b], |chain| - 1, s.cores[r])
    {
      CaughtPrefix(chain, b, |chain| - 1, s.cores[r]);
    }
  }

  /** The leader's next block: what OnPropose builds, and that it fits. */
  lemma NextLeaf(u: Setup, leader: ReplicaId, cmds: seq<Bytes>, chain: seq<Block>, full: seq<Block>, s: System, a: Action)
      returns (leaf: Block)
    requires Settled(u, leader, chain, full, s) && NoRepeat(u.digest, cmds) && Carries(u.digest, cmds, chain)
    requires |chain| <= |cmds| && a == Propose(leader, |chain|, cmds[|chain| - 1], 0)
    ensures LeafOf(u, s, a) == Some(leaf) && Fits(s, leaf)
    ensures leaf.selfQc.signs == map[] && leaf.justify == Some(full[|chain| - 1].selfQc) && leaf.height == |chain|
    ensures Linear(EnvOf(u, 0), full + [leaf]) && Linear(EnvOf(u, 0), chain + [WithVotes(leaf, {leader})])
    ensures Carries(u.digest, cmds, chain + [WithVotes(leaf, {leader})])
    ensures var announced, v := chain + [WithVotes(leaf, {leader})], s.tree[leaf.selfQc.blockHash := NodeOf(leaf)];
            OnTree(announced, |chain|, v) && OnlyChain(announced, v)
  {
    LinearForAll(u, full, leader);
    LeafIsBuilt(EnvOf(u, leader), full, s.cores[leader], |chain|, cmds[|chain| - 1], 0);
    leaf := LeafOf(u, s, a).value;
    LeafFits(u, leader, cmds, chain, full, s, leaf);
  }

  /** The leader proposes the next command: one call of OnPropose, which builds the leaf. */
  lemma ProposeStep(u: Setup, rule: VoteRule, leader: ReplicaId, cmds: seq<Bytes>, chain: seq<Block>, full: seq<Block>,
                    run: seq<Action>, s: System)
      returns (longer: seq<Action>, t: System, leaf: Block)
    requires Sound(u) && Settled(u, leader, chain, full, s) && NoRepeat(u.digest, cmds) && Carries(u.digest, cmds, chain)
    requires |chain| <= |cmds| && Made(u, rule, leader, run, s)
    ensures var a := Propose(leader, |chain|, cmds[|chain| - 1], 0);
            longer == run + [a] && LeafOf(u, s, a) == Some(leaf) && leaf.justify == Some(s.cores[leader].genericQC)
    ensures Made(u, rule, leader, longer, t) && s.cores[leader].events <= t.cores[leader].events
    ensures Voting(u, leader, chain, full, leaf, {}, {leader}, t)
    ensures Carries(u.digest, cmds, chain + [WithVotes(leaf, {leader})])
  {
    var a := Propose(leader, |chain|, cmds[|chain| - 1], 0);
    leaf := NextLeaf(u, leader, cmds, chain, full, s, a);
    longer, t := ProposeAs(u, rule, leader, chain, full, leaf, run, s, a);
  }

  lemma ProposeAs(u: Setup, rule: VoteRule, leader: ReplicaId, chain: seq<Block>, full: seq<Block>, leaf: Block,
                  run: seq<Action>, s: System, a: Action)
      returns (longer: seq<Action>, t: System)
    requires Sound(u) && Settled(u, leader, chain, full, s) && Made(u, rule, leader, run, s)
    requires a.Propose? && a.r == leader && a.curView == |chain| && LeafOf(u, s, a) == Some(leaf) && Fits(s, leaf)
    requires leaf.selfQc.signs == map[] && leaf.justify == Some(full[|chain| - 1].selfQc) && leaf.height == |chain|
    requires Linear(EnvOf(u, 0), full + [leaf]) && Linear(EnvOf(u, 0), chain + [WithVotes(leaf, {leader})])
    requires var announced, v := chain + [WithVotes(leaf, {leader})], s.tree[leaf.selfQc.blockHash := NodeOf(leaf)];
             OnTree(announced, |chain|, v) && OnlyChain(announced, v)
    ensures longer == run + [a]
    ensures Made(u, rule, leader, longer, t) && s.cores[leader].events <= t.cores[leader].events
    ensures Voting(u, leader, chain, full, leaf, {}, {leader}, t)
  {
    var env, c := EnvOf(u, leader), s.cores[leader];
    HonestAreAQuorum(u);
    LinearForAll(u, full + [leaf], leader);
    LeaderProposes(u, leader, full, c, a.curView, leaf);
    ProposeInOrder(u, rule, run, s, a, leaf);
    var d := ProposeLeaf(env, c, a.curView, leaf).core;
    longer, t := run + [a], System(s.tree[leaf.selfQc.blockHash := NodeOf(leaf)], s.cores[leader := d]);
    RunGrows(u, leader, run, a, c.events, d.events);
    ProposalStartsVoting(u, leader, chain, full, leaf, s, t, d);
  }

  // ---------------------------------------------------------------------------
  // The votes

  lemma FollowerSigned(announced: seq<Block>, n: nat, s: System, r: ReplicaId, i: nat)
    requires n < |announced| && 1 <= i <= n && r in s.cores && Caught(announced, n, s.cores[r])
    ensures HasSigned(WorldOf(s), r, announced[i].selfQc.blockHash)
  {
    assert WorldOf(s).ballots[r][i - 1].hash == announced[i].selfQc.blockHash;
  }

  lemma LeaderSigned(u: Setup, leader: ReplicaId, full: seq<Block>, leaf: Block, voters: set<ReplicaId>, s: System, h: Hash)
    requires full != [] && leader in s.cores && Collects(EnvOf(u, leader), full, leaf, voters, s.cores[leader])
    requires h == leaf.selfQc.blockHash || (|full| > 1 && h == full[|full| - 1].selfQc.blockHash)
    ensures HasSigned(WorldOf(s), leader, h)
  {
    var mine, n := full + [WithVotes(leaf, voters)], |full|;
    assert mine[n] == WithVotes(leaf, voters) && mine[n - 1] == full[n - 1];
    FollowerSigned(mine, n, s, leader, if h == leaf.selfQc.blockHash then n else n - 1);
  }

  /** Every certificate in the announced block is made of votes that were cast. */
  lemma AnnouncedIsAuthentic(u: Setup, leader: ReplicaId, chain: seq<Block>, full: seq<Block>, leaf: Block,
                             done: set<ReplicaId>, voters: set<ReplicaId>, s: System)
    requires Voting(u, leader, chain, full, leaf, done, voters, s)
    ensures Authentic(u, WorldOf(s), WithVotes(leaf, {leader}).selfQc)
    ensures |chain| > 1 ==> Authentic(u, WorldOf(s), leaf.justify.value)
  {
    OwnVoteIsAuthentic(u, leader, full, leaf, voters, s);
    if |chain| > 1 {
      LastIsSigned(u, leader, chain, full, leaf, done, voters, s, leaf.justify.value.blockHash);
    }
  }

  lemma OwnVoteIsAuthentic(u: Setup, leader: ReplicaId, full: seq<Block>, leaf: Block, voters: set<ReplicaId>, s: System)
    requires full != [] && leader in s.cores && Collects(EnvOf(u, leader), full, leaf, voters, s.cores[leader])
    ensures Authentic(u, WorldOf(s), WithVotes(leaf, {leader}).selfQc)
  {
    LeaderSigned(u, leader, full, leaf, voters, s, leaf.selfQc.blockHash);
  }

  /** Everybody has signed the last block below the leaf. */
  lemma LastIsSigned(u: Setup, leader: ReplicaId, chain: seq<Block>, full: seq<Block>, leaf: Block,
                     done: set<ReplicaId>, voters: set<ReplicaId>, s: System, h: Hash)
    requires Voting(u, leader, chain, full, leaf, done, voters, s) && |chain| > 1
    requires h == full[|chain| - 1].selfQc.blockHash
    ensures forall r :: r in Honest(u) ==> HasSigned(WorldOf(s), r, h)
  {
    var announced, n := chain + [WithVotes(leaf, {leader})], |chain|;
    assert announced[n - 1] == chain[n - 1];
    forall r | r in Honest(u)
      ensures HasSigned(WorldOf(s), r, h)
    {
      if r == leader {
        LeaderSigned(u, leader, full, leaf, voters, s, h);
      } else {
        FollowerSigned(announced, if r in done then n else n - 1, s, r, n - 1);
      }
    }
  }

  lemma AnnouncedIsValid(u: Setup, leader: ReplicaId, chain: seq<Block>, full: seq<Block>, leaf: Block,
                         done: set<ReplicaId>, voters: set<ReplicaId>, s: System)
    requires Voting(u, leader, chain, full, leaf, done, voters, s) && (|chain| == 1 ==> full[0].selfQc.signs == map[])
    ensures ValidBlock(u, s, WithVotes(leaf, {leader}))
  {
    var announced, n := chain + [WithVotes(leaf, {leader})], |chain|;
    assert announced[n] == WithVotes(leaf, {leader});
    assert OnTree(announced, n - 1, s.tree);
    NextFits(u, announced, n, s.tree);
    AnnouncedIsAuthentic(u, leader, chain, full, leaf, done, voters, s);
    assert LinkedTo(EnvOf(u, 0), announced, n) && LinkedTo(EnvOf(u, 0), full + [leaf], n);
  }

  /** The announced block reaches one more replica, which votes for it. */
  lemma DeliverRuns(u: Setup, rule: VoteRule, leader: ReplicaId, chain: seq<Block>, full: seq<Block>, leaf: Block,
                    done: set<ReplicaId>, voters: set<ReplicaId>, run: seq<Action>, s: System, r: ReplicaId, prop: Proposal)
    requires Voting(u, leader, chain, full, leaf, done, voters, s) && (|chain| == 1 ==> full[0].selfQc.signs == map[])
    requires Exec(u, rule, run) == Some(s) && Orderly(u, rule, run) && r in Honest(u) - {leader} - done
    requires prop == Proposal(|chain|, WithVotes(leaf, {leader}))
    ensures var c := OnReceiveProposal(EnvOf(u, r), rule, s.cores[r], prop).core;
            var tree := s.tree[leaf.selfQc.blockHash := NodeOf(leaf)];
            && Exec(u, rule, run + [Deliver(r, prop)]) == Some(System(tree, s.cores[r := c]))
            && Caught(chain + [WithVotes(leaf, {leader})], |chain|, c)
    ensures Orderly(u, rule, run + [Deliver(r, prop)])
  {
    FollowerVotes(u, rule, chain, prop, r, s.cores[r]);
    AnnouncedIsValid(u, leader, chain, full, leaf, done, voters, s);
    DeliverInOrder(u, rule, run, s, r, prop);
  }

  lemma FollowerVotes(u: Setup, rule: VoteRule, chain: seq<Block>, prop: Proposal, r: ReplicaId, c: Core)
    requires chain != [] && Linear(EnvOf(u, 0), chain + [prop.block]) && Caught(chain + [prop.block], |chain| - 1, c)
    ensures Caught(chain + [prop.block], |chain|, OnReceiveProposal(EnvOf(u, r), rule, c, prop).core)
    ensures Accepts(EnvOf(u, r), c, prop.block) && KnowsChain(StoreBlock(c, prop.block), prop.block)
  {
    var announced := chain + [prop.block];
    assert announced[|chain|] == prop.block;
    LinearForAll(u, announced, r);
    CatchUp(EnvOf(u, r), rule, announced, |chain| - 1, c, prop.viewNumber);
  }

  /** One more replica gets the announced block. */
  lemma DeliverStep(u: Setup, rule: VoteRule, leader: ReplicaId, chain: seq<Block>, full: seq<Block>, leaf: Block,
                    done: set<ReplicaId>, voters: set<ReplicaId>, run: seq<Action>, s: System, r: ReplicaId)
      returns (longer: seq<Action>, t: System)
    requires Voting(u, leader, chain, full, leaf, done, voters, s) && (|chain| == 1 ==> full[0].selfQc.signs == map[])
    requires Made(u, rule, leader, run, s) && r in Honest(u) - {leader} - done
    ensures Made(u, rule, leader, longer, t) && s.cores[leader].events <= t.cores[leader].events
    ensures Voting(u, leader, chain, full, leaf, done + {r}, voters, t) && Proposed(longer) == Proposed(run)
  {
    var prop := Proposal(|chain|, WithVotes(leaf, {leader}));
    var c := OnReceiveProposal(EnvOf(u, r), rule, s.cores[r], prop).core;
    DeliverRuns(u, rule, leader, chain, full, leaf, done, voters, run, s, r, prop);
    longer, t := run + [Deliver(r, prop)], System(s.tree[leaf.selfQc.blockHash := NodeOf(leaf)], s.cores[r := c]);
    RunGrows(u, leader, run, Deliver(r, prop), s.cores[leader].events, t.cores[leader].events);
    ProposedMore(run, Deliver(r, prop));
    DeliveryMoves(u, leader, chain, full, leaf, done, voters, s, r, t, c);
  }

  lemma DeliveryMoves(u: Setup, leader: ReplicaId, chain: seq<Block>, full: seq<Block>, leaf: Block,
                      done: set<ReplicaId>, voters: set<ReplicaId>, s: System, r: ReplicaId, t: System, c: Core)
    requires Voting(u, leader, chain, full, leaf, done, voters, s) && r in Honest(u) - {leader} - done
    requires Caught(chain + [WithVotes(leaf, {leader})], |chain|, c)
    requires t == System(s.tree[leaf.selfQc.blockHash := NodeOf(leaf)], s.cores[r := c])
    ensures Voting(u, leader, chain, full, leaf, done + {r}, voters, t)
  {
    TreeHasAnnounced(chain, WithVotes(leaf, {leader}), s.tree);
  }

  lemma TreeHasAnnounced(chain: seq<Block>, leaf: Block, t: Tree)
    requires OnTree(chain + [leaf], |chain|, t)
    ensures t[leaf.selfQc.blockHash := NodeOf(leaf)] == t
  {
    var d := chain + [leaf];
    assert d[|chain|] == leaf;
  }

  lemma VoteRuns(u: Setup, rule: VoteRule, leader: ReplicaId, chain: seq<Block>, full: seq<Block>, leaf: Block,
                 done: set<ReplicaId>, voters: set<ReplicaId>, run: seq<Action>, s: System, r: ReplicaId, vote: Vote)
    requires Sound(u) && Voting(u, leader, chain, full, leaf, done, voters, s)
    requires Exec(u, rule, run) == Some(s) && Orderly(u, rule, run) && r in done && r != leader
    requires vote == VoteProposal(EnvOf(u, r), |chain|, leaf.selfQc.blockHash)
    ensures var d := OnProposalVote(EnvOf(u, leader), s.cores[leader], vote).core;
            Exec(u, rule, run + [CastVote(leader, vote)]) == Some(System(s.tree, s.cores[leader := d]))
    ensures Orderly(u, rule, run + [CastVote(leader, vote)])
  {
    var announced, n := chain + [WithVotes(leaf, {leader})], |chain|;
    assert announced[n].selfQc.blockHash == leaf.selfQc.blockHash;
    FollowerSigned(announced, n, s, r, n);
    CastInOrder(u, rule, run, s, leader, vote);
  }

  lemma LeaderCounts(u: Setup, leader: ReplicaId, chain: seq<Block>, full: seq<Block>, leaf: Block,
                     done: set<ReplicaId>, voters: set<ReplicaId>, s: System, r: ReplicaId)
    requires Sound(u) && Voting(u, leader, chain, full, leaf, done, voters, s)
    requires r in done - voters && |voters| < GetQuorumSize(u.metadata)
    ensures var vote := VoteProposal(EnvOf(u, r), |chain|, leaf.selfQc.blockHash);
            var d := OnProposalVote(EnvOf(u, leader), s.cores[leader], vote).core;
            Collects(EnvOf(u, leader), full, leaf, voters + {r}, d) && s.cores[leader].events <= d.events
  {
    LinearForAll(u, full + [leaf], leader);
    CountsVote(u, leader, full, leaf, voters, s.cores[leader], r, |chain|);
  }

  /** The leader gets one more vote. */
  lemma VoteStep(u: Setup, rule: VoteRule, leader: ReplicaId, chain: seq<Block>, full: seq<Block>, leaf: Block,
                 done: set<ReplicaId>, voters: set<ReplicaId>, run: seq<Action>, s: System, r: ReplicaId)
      returns (longer: seq<Action>, t: System)
    requires Sound(u) && Voting(u, leader, chain, full, leaf, done, voters, s) && Made(u, rule, leader, run, s)
    requires r in done - voters && r != leader && |voters| < GetQuorumSize(u.metadata)
    ensures Made(u, rule, leader, longer, t) && s.cores[leader].events <= t.cores[leader].events
    ensures Voting(u, leader, chain, full, leaf, done, voters + {r}, t) && Proposed(longer) == Proposed(run)
  {
    var vote := VoteProposal(EnvOf(u, r), |chain|, leaf.selfQc.blockHash);
    var d := OnProposalVote(EnvOf(u, leader), s.cores[leader], vote).core;
    VoteRuns(u, rule, leader, chain, full, leaf, done, voters, run, s, r, vote);
    LeaderCounts(u, leader, chain, full, leaf, done, voters, s, r);
    longer, t := run + [CastVote(leader, vote)], System(s.tree, s.cores[leader := d]);
    RunGrows(u, leader, run, CastVote(leader, vote), s.cores[leader].events, d.events);
    ProposedMore(run, CastVote(leader, vote));
    VoteMoves(u, leader, chain, full, leaf, done, voters, s, r, t, d);
  }

  lemma VoteMoves(u: Setup, leader: ReplicaId, chain: seq<Block>, full: seq<Block>, leaf: Block,
                  done: set<ReplicaId>, voters: set<ReplicaId>, s: System, r: ReplicaId, t: System, c: Core)
    requires Voting(u, leader, chain, full, leaf, done, voters, s) && r in done && t == System(s.tree, s.cores[leader := c])
    requires Collects(EnvOf(u, leader), full, leaf, voters + {r}, c) && s.cores[leader].events <= c.events
    ensures Voting(u, leader, chain, full, leaf, done, voters + {r}, t)
  {
    EventStays(ProposeEvent(Proposal(|chain|, WithVotes(leaf, {leader}))), s.cores[leader].events, c.events);
  }

  lemma {:induction false} DeliverAll(u: Setup, rule: VoteRule, leader: ReplicaId, chain: seq<Block>, full: seq<Block>, leaf: Block,
                                      done: set<ReplicaId>, voters: set<ReplicaId>, run: seq<Action>, s: System)
      returns (longer: seq<Action>, t: System)
    requires Voting(u, leader, chain, full, leaf, done, voters, s) && (|chain| == 1 ==> full[0].selfQc.signs == map[])
    requires Made(u, rule, leader, run, s)
    ensures Made(u, rule, leader, longer, t) && s.cores[leader].events <= t.cores[leader].events
    ensures Voting(u, leader, chain, full, leaf, Honest(u) - {leader}, voters, t) && Proposed(longer) == Proposed(run)
    decreases Honest(u) - {leader} - done
  {
    if done == Honest(u) - {leader} {
      longer, t := run, s;
    } else {
      var r := NotYet(Honest(u) - {leader}, done);
      var longer', t' := DeliverStep(u, rule, leader, chain, full, leaf, done, voters, run, s, r);
      FewerLeft(Honest(u) - {leader}, done, r);
      longer, t := DeliverAll(u, rule, leader, chain, full, leaf, done + {r}, voters, longer', t');
    }
  }

  /** The leader counts votes until they are a quorum. */
  lemma {:induction false} CountAll(u: Setup, rule: VoteRule, leader: ReplicaId, chain: seq<Block>, full: seq<Block>, leaf: Block,
                                    voters: set<ReplicaId>, run: seq<Action>, s: System)
      returns (longer: seq<Action>, t: System, all: set<ReplicaId>)
    requires Sound(u) && Voting(u, leader, chain, full, leaf, Honest(u) - {leader}, voters, s)
    requires Made(u, rule, leader, run, s)
    ensures Made(u, rule, leader, longer, t) && s.cores[leader].events <= t.cores[leader].events
    ensures Voting(u, leader, chain, full, leaf, Honest(u) - {leader}, all, t) && |all| >= GetQuorumSize(u.metadata)
    ensures Proposed(longer) == Proposed(run)
    decreases GetQuorumSize(u.metadata) - |voters|
  {
    if |voters| >= GetQuorumSize(u.metadata) {
      longer, t, all := run, s, voters;
    } else {
      HonestAreAQuorum(u);
      var r := NotYet(Honest(u), voters);
      var longer', t' := VoteStep(u, rule, leader, chain, full, leaf, Honest(u) - {leader}, voters, run, s, r);
      longer, t, all := CountAll(u, rule, leader, chain, full, leaf, voters + {r}, longer', t');
    }
  }

  /** With a quorum counted, everybody is settled on the longer chain. */
  lemma VotingEnds(u: Setup, leader: ReplicaId, chain: seq<Block>, full: seq<Block>, leaf: Block, voters: set<ReplicaId>, s: System)
    requires Sound(u) && Voting(u, leader, chain, full, leaf, Honest(u) - {leader}, voters, s)
    requires |voters| >= GetQuorumSize(u.metadata)
    ensures Settled(u, leader, chain + [WithVotes(leaf, {leader})], full + [WithVotes(leaf, voters)], s)
    ensures Counted(u, leaf.proposer, WithVotes(leaf, voters).selfQc, s.cores[leader].events)
  {
    var announced, certified, n := chain + [WithVotes(leaf, {leader})], full + [WithVotes(leaf, voters)], |chain|;
    LinearWithVotes(EnvOf(u, 0), full, leaf, voters);
    VotesVerify(u, voters, WithVotes(leaf, voters).selfQc);
    BlocksStaySame(chain, full, WithVotes(leaf, {leader}), WithVotes(leaf, voters));
    assert certified[n] == WithVotes(leaf, voters) && |announced| - 1 == n == |certified| - 1;
    LeadsAgain(EnvOf(u, leader), full, leaf, voters, s.cores[leader]);
  }

  lemma LeadsAgain(env: Env, full: seq<Block>, leaf: Block, voters: set<ReplicaId>, c: Core)
    requires full != [] && Collects(env, full, leaf, voters, c) && |voters| >= GetQuorumSize(env.metadata)
    ensures Leads(full + [WithVotes(leaf, voters)], c)
  {
  }

  lemma BlocksStaySame(chain: seq<Block>, full: seq<Block>, b: Block, c: Block)
    requires SameBlocks(chain, full) && c == b.(selfQc := c.selfQc) && c.selfQc.blockHash == b.selfQc.blockHash
    ensures SameBlocks(chain + [b], full + [c])
  {
  }

  // ---------------------------------------------------------------------------
  // Any number of commands

  lemma StartSettled(u: Setup, leader: ReplicaId)
    requires leader in Honest(u)
    ensures Settled(u, leader, [Genesis(u.digest)], [Genesis(u.digest)], Init(u))
  {
    var chain := [Genesis(u.digest)];
    assert Preimage(Genesis(u.digest)) == Preimage(Block([], [], 0, 0, 0, None, QuorumCert(-1, [], map[])));
    assert LinkedTo(EnvOf(u, 0), chain, 0);
    assert OfChain(chain, G(u)) by { assert chain[0].selfQc.blockHash == G(u); }
    forall r | r in Honest(u)
      ensures Caught(chain, 0, Initial(EnvOf(u, r)))
    {
    }
  }

  /** The next command: proposed, delivered to all, and counted. */
  lemma OneCommand(u: Setup, rule: VoteRule, leader: ReplicaId, cmds: seq<Bytes>, chain: seq<Block>, full: seq<Block>,
                   run: seq<Action>, s: System)
      returns (longer: seq<Action>, t: System, leaf: Block, voters: set<ReplicaId>)
    requires Sound(u) && Settled(u, leader, chain, full, s) && NoRepeat(u.digest, cmds) && Carries(u.digest, cmds, chain)
    requires |chain| <= |cmds| && Made(u, rule, leader, run, s) && full[0].selfQc.signs == map[]
    ensures Made(u, rule, leader, longer, t) && s.cores[leader].events <= t.cores[leader].events
    ensures Voting(u, leader, chain, full, leaf, Honest(u) - {leader}, voters, t) && |voters| >= GetQuorumSize(u.metadata)
    ensures Proposed(longer) == Proposed(run) + [cmds[|chain| - 1]]
    ensures Carries(u.digest, cmds, chain + [WithVotes(leaf, {leader})])
  {
    var run1, s1;
    run1, s1, leaf := ProposeStep(u, rule, leader, cmds, chain, full, run, s);
    ProposedMore(run, Propose(leader, |chain|, cmds[|chain| - 1], 0));
    longer, t, voters := AllVote(u, rule, leader, chain, full, leaf, run1, s1);
  }

  lemma AllVote(u: Setup, rule: VoteRule, leader: ReplicaId, chain: seq<Block>, full: seq<Block>, leaf: Block,
                run: seq<Action>, s: System)
      returns (longer: seq<Action>, t: System, voters: set<ReplicaId>)
    requires Sound(u) && Voting(u, leader, chain, full, leaf, {}, {leader}, s) && full[0].selfQc.signs == map[]
    requires Made(u, rule, leader, run, s)
    ensures Made(u, rule, leader, longer, t) && s.cores[leader].events <= t.cores[leader].events
    ensures Voting(u, leader, chain, full, leaf, Honest(u) - {leader}, voters, t) && |voters| >= GetQuorumSize(u.metadata)
    ensures Proposed(longer) == Proposed(run)
  {
    var run1, s1 := DeliverAll(u, rule, leader, chain, full, leaf, {}, {leader}, run, s);
    longer, t, voters := CountAll(u, rule, leader, chain, full, leaf, {leader}, run1, s1);
  }

  /** Everything after the first n commands. */
  ghost predicate Looped(u: Setup, rule: VoteRule, leader: ReplicaId, cmds: seq<Bytes>, n: nat,
                         run: seq<Action>, s: System, chain: seq<Block>, full: seq<Block>) {
    && Made(u, rule, leader, run, s) && |chain| == n + 1 <= |cmds| + 1 && Proposed(run) == cmds[..n]
    && Settled(u, leader, chain, full, s) && Carries(u.digest, cmds, chain) && full[0] == Genesis(u.digest)
    && Chained(u, chain, full, s.cores[leader].events)
  }

  lemma LoopStep(u: Setup, rule: VoteRule, leader: ReplicaId, cmds: seq<Bytes>, n: nat,
                 run: seq<Action>, s: System, chain: seq<Block>, full: seq<Block>)
      returns (longer: seq<Action>, t: System, announced: seq<Block>, certified: seq<Block>)
    requires Sound(u) && NoRepeat(u.digest, cmds) && 1 <= n <= |cmds|
    requires Looped(u, rule, leader, cmds, n - 1, run, s, chain, full)
    ensures Looped(u, rule, leader, cmds, n, longer, t, announced, certified)
  {
    var leaf, voters;
    longer, t, leaf, voters := OneCommand(u, rule, leader, cmds, chain, full, run, s);
    VotingEnds(u, leader, chain, full, leaf, voters, t);
    announced, certified := chain + [WithVotes(leaf, {leader})], full + [WithVotes(leaf, voters)];
    ChainedNext(u, chain, full, s.cores[leader].events, WithVotes(leaf, {leader}), WithVotes(leaf, voters),
                t.cores[leader].events);
    TakeOne(cmds, n - 1);
  }

  lemma TakeOne<T>(xs: seq<T>, n: nat)
    requires n < |xs|
    ensures xs[..n + 1] == xs[..n] + [xs[n]]
  {
  }

  lemma LoopStarts(u: Setup, rule: VoteRule, leader: ReplicaId, cmds: seq<Bytes>, n: nat)
      returns (run: seq<Action>, s: System, chain: seq<Block>, full: seq<Block>)
    requires leader in Honest(u) && n == 0
    ensures Looped(u, rule, leader, cmds, n, run, s, chain, full)
  {
    StartSettled(u, leader);
    run, s, chain, full := [], Init(u), [Genesis(u.digest)], [Genesis(u.digest)];
  }

  lemma {:induction false} Loop(u: Setup, rule: VoteRule, leader: ReplicaId, cmds: seq<Bytes>, n: nat)
      returns (run: seq<Action>, s: System, chain: seq<Block>, full: seq<Block>)
    requires Sound(u) && leader in Honest(u) && NoRepeat(u.digest, cmds) && n <= |cmds|
    ensures Looped(u, rule, leader, cmds, n, run, s, chain, full)
  {
    if n == 0 {
      run, s, chain, full := LoopStarts(u, rule, leader, cmds, n);
    } else {
      var run', s', chain', full' := Loop(u, rule, leader, cmds, n - 1);
      run, s, chain, full := LoopStep(u, rule, leader, cmds, n, run', s', chain', full');
    }
  }

  lemma {:induction false} SameHashes(chain: seq<Block>, full: seq<Block>, n: nat)
    requires SameBlocks(chain, full) && 1 <= n <= |chain|
    ensures HashesOf(full[1..n]) == HashesOf(chain[1..n])
  {
    if n > 1 {
      SameHashes(chain, full, n - 1);
      SliceGrows(chain, 1, n - 1);
      SliceGrows(full, 1, n - 1);
      HashesSnoc(chain[1..n - 1], chain[n - 1]);
      HashesSnoc(full[1..n - 1], full[n - 1]);
    }
  }

  /** The blocks carry the commands, and replica `c` has stored them so. */
  predicate Holds(cmds: seq<Bytes>, chain: seq<Block>, c: Core) {
    |chain| == |cmds| + 1 && forall i :: 1 <= i <= |cmds| ==>
      && chain[i].cmds == cmds[i - 1] && chain[i].selfQc.blockHash in c.blockCache
      && c.blockCache[chain[i].selfQc.blockHash].cmds == cmds[i - 1]
  }

  /** The first block justifies genesis and every other one the block before it, by a certificate of honest
      signatures that verifies and that the leader announced with QcFinish. */
  predicate AllCounted(u: Setup, chain: seq<Block>, es: seq<Event>) {
    && |chain| >= 2 && chain[1].justify == Some(Genesis(u.digest).selfQc)
    && forall i :: 2 <= i < |chain| ==>
         && chain[i].justify.Some? && chain[i].justify.value.blockHash == chain[i - 1].selfQc.blockHash
         && Counted(u, chain[i - 1].proposer, chain[i].justify.value, es)
  }

  /** For any setup, any honest leader and any n >= 3 commands on which the hash function does not collide, there is
      an orderly run after which every honest replica has decided the first n - 3 commands, in order, by the same
      blocks. In this run the leader proposes exactly the commands, in order, only what it announced is delivered,
      and only votes of honest replicas are counted. */
  lemma CommandsAreDecided(u: Setup, rule: VoteRule, leader: ReplicaId, cmds: seq<Bytes>)
      returns (run: seq<Action>, s: System, chain: seq<Block>)
    requires Sound(u) && leader in Honest(u) && NoRepeat(u.digest, cmds) && |cmds| >= 3
    ensures Exec(u, rule, run) == Some(s) && Orderly(u, rule, run) && s.cores.Keys == Honest(u)
    ensures forall r :: r in s.cores ==> DecidedCmds(s.cores[r].events) == cmds[..|cmds| - 3]
    ensures Proposed(run) == cmds && LoopRun(u, leader, run, s.cores[leader].events)
    ensures |chain| == |cmds| + 1 && Carries(u.digest, cmds, chain)
    ensures forall r :: r in s.cores ==> Holds(cmds, chain, s.cores[r])
    ensures forall r :: r in s.cores ==> DecidedHashes(s.cores[r].events) == HashesOf(chain[1..|chain| - 3])
    ensures AllCounted(u, chain, s.cores[leader].events)
  {
    var full;
    run, s, chain, full := Loop(u, rule, leader, cmds, |cmds|);
    assert cmds[..|cmds|] == cmds;
    LoopEnds(u, leader, cmds, chain, full, s);
  }

  lemma LoopEnds(u: Setup, leader: ReplicaId, cmds: seq<Bytes>, chain: seq<Block>, full: seq<Block>, s: System)
    requires Settled(u, leader, chain, full, s) && Carries(u.digest, cmds, chain) && full[0] == Genesis(u.digest)
    requires Chained(u, chain, full, s.cores[leader].events) && |chain| == |cmds| + 1 >= 4
    ensures s.cores.Keys == Honest(u) && AllCounted(u, chain, s.cores[leader].events)
    ensures forall r :: r in s.cores ==> DecidedCmds(s.cores[r].events) == cmds[..|cmds| - 3]
    ensures forall r :: r in s.cores ==> Holds(cmds, chain, s.cores[r])
    ensures forall r :: r in s.cores ==> DecidedHashes(s.cores[r].events) == HashesOf(chain[1..|chain| - 3])
  {
    BlocksAreCounted(u, chain, full, s.cores[leader].events);
    SameHashes(chain, full, |chain| - 3);
    SameBlocksSelf(chain);
    forall r | r in s.cores
      ensures Holds(cmds, chain, s.cores[r]) && DecidedCmds(s.cores[r].events) == cmds[..|cmds| - 3]
      ensures DecidedHashes(s.cores[r].events) == HashesOf(chain[1..|chain| - 3])
    {
      FedHolds(u.digest, cmds, chain, if r == leader then full else chain, s.cores[r]);
    }
  }

  lemma SameBlocksSelf(chain: seq<Block>)
    ensures SameBlocks(chain, chain)
  {
  }

  /** A replica that is done with its version of the chain. */
  lemma FedHolds(digest: Bytes -> Hash, cmds: seq<Bytes>, chain: seq<Block>, mine: seq<Block>, c: Core)
    requires Carries(digest, cmds, chain) && SameBlocks(chain, mine) && |chain| == |cmds| + 1 >= 4
    requires Fed(mine, |chain| - 1, c)
    ensures Holds(cmds, chain, c) && DecidedCmds(c.events) == cmds[..|cmds| - 3] && Decided(c.events) == mine[1..|chain| - 3]
  {
    forall i | 1 <= i <= |cmds|
      ensures mine[i].cmds == chain[i].cmds == cmds[i - 1] && chain[i].selfQc.blockHash in c.blockCache
      ensures c.blockCache[chain[i].selfQc.blockHash] == mine[i]
    {
      assert mine[i] == chain[i].(selfQc := mine[i].selfQc) && mine[i].selfQc.blockHash == chain[i].selfQc.blockHash;
    }
    SliceCarries(cmds, mine, |chain| - 3);
  }

  lemma SliceCarries(cmds: seq<Bytes>, mine: seq<Block>, m: nat)
    requires 1 <= m <= |cmds| + 1 == |mine| && forall i :: 1 <= i <= |cmds| ==> mine[i].cmds == cmds[i - 1]
    ensures CmdsOf(mine[1..m]) == cmds[..m - 1]
  {
    var a := CmdsOf(mine[1..m]);
    forall i | 0 <= i < m - 1
      ensures a[i] == cmds[i]
    {
      assert mine[1..m][i] == mine[i + 1];
    }
  }

  lemma BlocksAreCounted(u: Setup, chain: seq<Block>, full: seq<Block>, es: seq<Event>)
    requires |chain| >= 2 && SameBlocks(chain, full) && Chained(u, chain, full, es) && full[0] == Genesis(u.digest)
    ensures AllCounted(u, chain, es)
  {
    forall i | 2 <= i < |chain|
      ensures && chain[i].justify.Some? && chain[i].justify.value.blockHash == chain[i - 1].selfQc.blockHash
              && Counted(u, chain[i - 1].proposer, chain[i].justify.value, es)
    {
      assert full[i - 1] == chain[i - 1].(selfQc := full[i - 1].selfQc);
    }
  }

  /** With four replicas, one of them faulty, and a hash function that keeps all it is given this is so for any three
      commands or more. */
  lemma AnyCommandsAreDecided(rule: VoteRule, cmds: seq<Bytes>)
      returns (u: Setup, run: seq<Action>, s: System, chain: seq<Block>)
    requires |cmds| >= 3
    ensures u == Four(Verbatim()) && Sound(u) && s.cores.Keys == Honest(u) == {0, 1, 2}
    ensures Exec(u, rule, run) == Some(s) && Orderly(u, rule, run)
    ensures forall r :: r in s.cores ==> DecidedCmds(s.cores[r].events) == cmds[..|cmds| - 3]
    ensures Proposed(run) == cmds && LoopRun(u, 0, run, s.cores[0].events)
    ensures |chain| == |cmds| + 1 && Carries(u.digest, cmds, chain)
    ensures forall r :: r in s.cores ==> Holds(cmds, chain, s.cores[r])
    ensures forall r :: r in s.cores ==> DecidedHashes(s.cores[r].events) == HashesOf(chain[1..|chain| - 3])
    ensures AllCounted(u, chain, s.cores[0].events)
  {
    u := Four(Verbatim());
    FourIsSound(Verbatim());
    VerbatimNeverRepeats(cmds);
    run, s, chain := CommandsAreDecided(u, rule, 0, cmds);
  }

  /** A hash function that keeps all it is given does not collide on any ledger. */
  lemma VerbatimNeverRepeats(cmds: seq<Bytes>)
    ensures NoRepeat(Verbatim(), cmds)
  {
    forall i, j | 0 <= i < j <= |cmds|
      ensures LedgerHash(Verbatim(), cmds, i) != LedgerHash(Verbatim(), cmds, j)
    {
      LengthOfHash(cmds, i);
      LengthOfHash(cmds, j);
      LengthsGrow(cmds, i, j);
    }
  }

  /** The length of the i-th hash if nothing is lost. */
  function LedgerLength(cmds: seq<Bytes>, i: nat): nat
    requires i <= |cmds|
  {
    if i == 0 then |GenesisHash(Verbatim())| else LedgerLength(cmds, i - 1) + 8 + |cmds[i - 1]|
  }

  lemma {:induction false} LengthOfHash(cmds: seq<Bytes>, i: nat)
    requires i <= |cmds|
    ensures |LedgerHash(Verbatim(), cmds, i)| == LedgerLength(cmds, i)
  {
    if i > 0 {
      var below, height := LedgerHash(Verbatim(), cmds, i - 1), LittleEndian(Uint64(i), 8);
      LengthOfHash(cmds, i - 1);
      assert LedgerHash(Verbatim(), cmds, i) == below + height + cmds[i - 1];
    }
  }

  lemma {:induction false} LengthsGrow(cmds: seq<Bytes>, i: nat, j: nat)
    requires i < j <= |cmds|
    ensures LedgerLength(cmds, i) < LedgerLength(cmds, j)
  {
    if i < j - 1 { LengthsGrow(cmds, i, j - 1); }
  }
}
