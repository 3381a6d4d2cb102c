/** What becomes of the votes for one block over any sequence of handler calls on a replica. */
module TallyRuns {
  import opened Types
  import opened Quorum
  import opened Replica

  /** A call on one replica. */
  datatype Op =
    | ProposeOp(curView: int, parentHash: Hash, cmds: Bytes, timestamp: int)
    | ReceiveOp(prop: Proposal)
    | VoteOp(vote: Vote)
    | HighestOp(block: Block, qc: QuorumCert)

  function Step(env: Env, rule: VoteRule, s: Core, op: Op): Core {
    match op
    case ProposeOp(curView, parentHash, cmds, timestamp) => OnPropose(env, s, curView, parentHash, cmds, timestamp).core
    case ReceiveOp(prop) => OnReceiveProposal(env, rule, s, prop).core
    case VoteOp(vote) => OnProposalVote(env, s, vote).core
    case HighestOp(block, qc) => UpdateHighestQC(env, s, block, qc)
  }

  function Run(env: Env, rule: VoteRule, s: Core, ops: seq<Op>): Core {
    if ops == [] then s else Step(env, rule, Run(env, rule, s, ops[..|ops| - 1]), ops[|ops| - 1])
  }

  // ---------------------------------------------------------------------------
  // Views of the tally

  function SignsOf(s: Core, h: Hash): map<ReplicaId, PartCert> {
    if h in s.blockCache then s.blockCache[h].selfQc.signs else map[]
  }

  function VotersOf(votes: seq<Vote>): set<ReplicaId> {
    set i | 0 <= i < |votes| :: votes[i].voter
  }

  /** Everybody whose vote for `h` the replica holds, counted or parked. */
  function Recorded(s: Core, h: Hash): set<ReplicaId> {
    SignsOf(s, h).Keys + VotersOf(Parked(s, h))
  }

  /** Every certificate of `a` is in `b`, unchanged. */
  predicate Keeps(a: map<ReplicaId, PartCert>, b: map<ReplicaId, PartCert>) {
    forall id :: id in a ==> id in b && b[id] == a[id]
  }

  predicate BelowQuorum(env: Env, s: Core, h: Hash) {
    h in s.blockCache ==> |SignsOf(s, h)| < env.metadata.n - env.metadata.f
  }

  /** Blocks are filed under the hash they carry. */
  predicate Keyed(s: Core) {
    forall h :: h in s.blockCache ==> s.blockCache[h].selfQc.blockHash == h
  }

  /** The block the call stores, if any. */
  function Stored(env: Env, s: Core, op: Op): Option<Block> {
    match op
    case ProposeOp(curView, parentHash, cmds, timestamp) => NewLeaf(env, s, curView, parentHash, cmds, timestamp)
    case ReceiveOp(prop) => Some(prop.block)
    case _ => None
  }

  predicate Stores(env: Env, s: Core, op: Op, h: Hash) {
    Stored(env, s, op).Some? && Stored(env, s, op).value.selfQc.blockHash == h
  }

  /** The voters for `h` that the call delivers: the signers a stored block comes with, the sender of a
      vote, and the proposer itself once it gets to vote. */
  function Delivered(env: Env, s: Core, op: Op, h: Hash): set<ReplicaId> {
    match op
    case VoteOp(vote) => if vote.blockHash == h then {vote.voter} else {}
    case ReceiveOp(prop) => if Stores(env, s, op, h) then prop.block.selfQc.signs.Keys else {}
    case ProposeOp(_, _, _, _) =>
      if Stores(env, s, op, h) && Update(env, StoreBlock(s, Stored(env, s, op).value), Stored(env, s, op).value).ok
      then {env.id} else {}
    case HighestOp(_, _) => {}
  }

  function AllDelivered(env: Env, rule: VoteRule, s: Core, ops: seq<Op>, h: Hash): set<ReplicaId> {
    if ops == [] then {}
    else
      var before := ops[..|ops| - 1];
      AllDelivered(env, rule, s, before, h) + Delivered(env, Run(env, rule, s, before), ops[|ops| - 1], h)
  }

  /** No call stores a block under `h` when one is there already. */
  predicate StoredOnce(env: Env, rule: VoteRule, s: Core, ops: seq<Op>, h: Hash) {
    ops == [] ||
    var before := ops[..|ops| - 1];
    var mid := Run(env, rule, s, before);
    StoredOnce(env, rule, s, before, h) && (Stores(env, mid, ops[|ops| - 1], h) ==> h !in mid.blockCache)
  }

  // ---------------------------------------------------------------------------
  // One call

  lemma {:induction false} ApplyVotesKeys(signs: map<ReplicaId, PartCert>, votes: seq<Vote>)
    ensures ApplyVotes(signs, votes).Keys == signs.Keys + VotersOf(votes)
    ensures Keeps(signs, ApplyVotes(signs, votes))
    decreases |votes|
  {
    if votes != [] {
      var next := if votes[0].voter in signs then signs else signs[votes[0].voter := votes[0].cert];
      ApplyVotesKeys(next, votes[1..]);
      VotersSplit(votes);
    }
  }

  lemma VotersSplit(votes: seq<Vote>)
    requires votes != []
    ensures VotersOf(votes) == {votes[0].voter} + VotersOf(votes[1..])
  {
    forall x | x in VotersOf(votes)
      ensures x in {votes[0].voter} + VotersOf(votes[1..])
    {
      var i :| 0 <= i < |votes| && votes[i].voter == x;
      if i > 0 { assert votes[1..][i - 1] == votes[i]; }
    }
    forall x | x in VotersOf(votes[1..])
      ensures x in VotersOf(votes)
    {
      var i :| 0 <= i < |votes[1..]| && votes[1..][i].voter == x;
      assert votes[i + 1].voter == x;
    }
  }

  lemma VotersAppend(votes: seq<Vote>, v: Vote)
    ensures VotersOf(votes + [v]) == VotersOf(votes) + {v.voter}
  {
    var longer := votes + [v];
    assert longer[|votes|] == v;
    forall x | x in VotersOf(votes)
      ensures x in VotersOf(longer)
    {
      var i :| 0 <= i < |votes| && votes[i].voter == x;
      assert longer[i].voter == x;
    }
  }

  /** What a counted vote does to the tallies. */
  lemma TallyEffect(s: Core, vote: Vote, h: Hash)
    requires Keyed(s) && vote.blockHash in s.blockCache && vote.voter !in SignsOf(s, vote.blockHash)
    ensures var t := Tally(s, vote);
            && Keyed(t) && Keeps(SignsOf(s, h), SignsOf(t, h))
            && (h == vote.blockHash ==> SignsOf(t, h).Keys == Recorded(s, h) + {vote.voter} && Parked(t, h) == [])
            && (h != vote.blockHash ==> SignsOf(t, h) == SignsOf(s, h) && Parked(t, h) == Parked(s, h))
  {
    ApplyVotesKeys(SignsOf(s, vote.blockHash)[vote.voter := vote.cert], Parked(s, vote.blockHash));
  }

  /** The vote is counted: its block is stored, the tally is open and the voter is new. */
  predicate Counts(env: Env, s: Core, vote: Vote) {
    vote.blockHash in s.blockCache && BelowQuorum(env, s, vote.blockHash) && vote.voter !in SignsOf(s, vote.blockHash)
  }

  /** What OnProposalVote does to store and parked votes. */
  function TallyOnly(env: Env, s: Core, vote: Vote): Core {
    if vote.blockHash !in s.blockCache then AddVoteMsg(s, vote)
    else if Counts(env, s, vote) then Tally(s, vote)
    else s
  }

  predicate SameTally(s: Core, t: Core) {
    s.blockCache == t.blockCache && s.voteSet == t.voteSet
  }

  lemma VoteTally(env: Env, s: Core, vote: Vote)
    ensures SameTally(OnProposalVote(env, s, vote).core, TallyOnly(env, s, vote))
  {
  }

  lemma ParkingConserves(env: Env, s: Core, vote: Vote, h: Hash)
    requires vote.blockHash !in s.blockCache
    ensures var t := AddVoteMsg(s, vote);
            Recorded(t, h) == Recorded(s, h) + (if vote.blockHash == h then {vote.voter} else {})
  {
    VotersAppend(Parked(s, vote.blockHash), vote);
    var t := AddVoteMsg(s, vote);
    assert SignsOf(t, h) == SignsOf(s, h);
    if h == vote.blockHash {
      assert Parked(t, h) == Parked(s, h) + [vote];
    } else {
      assert Parked(t, h) == Parked(s, h);
    }
  }

  lemma CountingConserves(env: Env, s: Core, vote: Vote, h: Hash)
    requires Keyed(s) && Counts(env, s, vote)
    ensures var t := Tally(s, vote);
            && Keyed(t) && Keeps(SignsOf(s, h), SignsOf(t, h))
            && Recorded(t, h) == Recorded(s, h) + (if vote.blockHash == h then {vote.voter} else {})
            && (!BelowQuorum(env, s, h) ==> SignsOf(t, h) == SignsOf(s, h))
  {
    TallyEffect(s, vote, h);
    if h == vote.blockHash {
      AllCounted(s, Tally(s, vote), vote.voter, h);
    }
  }

  lemma AllCounted(s: Core, t: Core, voter: ReplicaId, h: Hash)
    requires SignsOf(t, h).Keys == Recorded(s, h) + {voter} && Parked(t, h) == []
    ensures Recorded(t, h) == Recorded(s, h) + {voter}
  {
    assert VotersOf([]) == {};
  }

  /** Delivering a vote records its voter and forgets nobody, as long as the tally is open. */
  lemma TallyOnlyConserves(env: Env, s: Core, vote: Vote, h: Hash)
    requires Keyed(s)
    ensures var t := TallyOnly(env, s, vote);
            && Keyed(t) && Keeps(SignsOf(s, h), SignsOf(t, h))
            && (BelowQuorum(env, s, h) ==>
                  Recorded(t, h) == Recorded(s, h) + (if vote.blockHash == h then {vote.voter} else {}))
            && (!BelowQuorum(env, s, h) ==> SignsOf(t, h) == SignsOf(s, h))
  {
    if vote.blockHash !in s.blockCache {
      ParkingConserves(env, s, vote, h);
    } else if Counts(env, s, vote) {
      CountingConserves(env, s, vote, h);
    }
  }

  lemma VoteConserves(env: Env, s: Core, vote: Vote, t: Core, h: Hash)
    requires Keyed(s) && SameTally(t, TallyOnly(env, s, vote))
    ensures Keyed(t) && Keeps(SignsOf(s, h), SignsOf(t, h))
    ensures BelowQuorum(env, s, h) ==>
              Recorded(t, h) == Recorded(s, h) + (if vote.blockHash == h then {vote.voter} else {})
    ensures !BelowQuorum(env, s, h) ==> SignsOf(t, h) == SignsOf(s, h)
    ensures BelowQuorum(env, t, h) ==> BelowQuorum(env, s, h)
  {
    TallyOnlyConserves(env, s, vote, h);
    var x := TallyOnly(env, s, vote);
    assert SignsOf(t, h) == SignsOf(x, h) && Parked(t, h) == Parked(x, h);
    ClosedStaysClosed(env, s, t, h);
  }

  /** A replica whose store and parked votes are those of `s`, with `block` stored. */
  predicate StoreOf(s: Core, block: Block, t: Core) {
    t.blockCache == s.blockCache[block.selfQc.blockHash := block] && t.voteSet == s.voteSet
  }

  lemma StoringConserves(s: Core, block: Block, t: Core, h: Hash)
    requires Keyed(s) && StoreOf(s, block, t) && (h == block.selfQc.blockHash ==> h !in s.blockCache)
    ensures Keyed(t) && Keeps(SignsOf(s, h), SignsOf(t, h))
    ensures Recorded(t, h) == Recorded(s, h) + (if h == block.selfQc.blockHash then block.selfQc.signs.Keys else {})
  {
  }

  lemma ReceiveStores(env: Env, rule: VoteRule, s: Core, prop: Proposal)
    ensures StoreOf(s, prop.block, OnReceiveProposal(env, rule, s, prop).core)
  {
  }

  lemma ProposeStores(env: Env, s: Core, op: Op)
    requires op.ProposeOp? && Stored(env, s, op).Some?
    ensures var block := Stored(env, s, op).value;
            var u := Update(env, StoreBlock(s, block), block);
            var vote := VoteProposal(env, op.curView, block.selfQc.blockHash);
            var t := OnPropose(env, s, op.curView, op.parentHash, op.cmds, op.timestamp).core;
            && StoreOf(s, block, u.core)
            && (!u.ok ==> t == u.core)
            && (u.ok ==> SameTally(t, TallyOnly(env, u.core, vote)))
  {
    var block := Stored(env, s, op).value;
    var u := Update(env, StoreBlock(s, block), block);
    if u.ok {
      SelfVoteTally(env, u.core, op.curView, block);
    }
  }

  lemma SelfVoteTally(env: Env, s: Core, curView: int, block: Block)
    requires block.selfQc.blockHash in s.blockCache
    ensures SameTally(SelfVote(env, s, curView, block).core,
                      TallyOnly(env, s, VoteProposal(env, curView, block.selfQc.blockHash)))
  {
    var voted := Sign(s.(voteHeight := block.height), block.selfQc.blockHash);
    VoteTally(env, voted, VoteProposal(env, curView, block.selfQc.blockHash));
  }

  /** Storing a block and then counting a vote for it. */
  lemma StoreThenVote(env: Env, s: Core, block: Block, mid: Core, vote: Vote, t: Core, h: Hash)
    requires Keyed(s) && StoreOf(s, block, mid) && (h == block.selfQc.blockHash ==> h !in s.blockCache)
    requires vote.blockHash == block.selfQc.blockHash && SameTally(t, TallyOnly(env, mid, vote))
    requires block.selfQc.signs == map[]
    ensures Keyed(t) && Keeps(SignsOf(s, h), SignsOf(t, h))
    ensures BelowQuorum(env, t, h) ==>
              Recorded(t, h) == Recorded(s, h) + (if h == vote.blockHash then {vote.voter} else {})
  {
    StoringConserves(s, block, mid, h);
    VoteConserves(env, mid, vote, t, h);
  }

  lemma ProposeConserves(env: Env, rule: VoteRule, s: Core, op: Op, h: Hash)
    requires Keyed(s) && op.ProposeOp? && (Stores(env, s, op, h) ==> h !in s.blockCache)
    ensures var t := Step(env, rule, s, op);
            && Keyed(t) && Keeps(SignsOf(s, h), SignsOf(t, h))
            && (BelowQuorum(env, t, h) ==> Recorded(t, h) == Recorded(s, h) + Delivered(env, s, op, h))
  {
    if Stored(env, s, op).Some? {
      var block, t := Stored(env, s, op).value, Step(env, rule, s, op);
      ProposeStores(env, s, op);
      var u := Update(env, StoreBlock(s, block), block);
      if u.ok {
        StoreThenVote(env, s, block, u.core, VoteProposal(env, op.curView, block.selfQc.blockHash), t, h);
      } else {
        StoringConserves(s, block, t, h);
      }
    }
  }

  lemma CacheGrows(env: Env, rule: VoteRule, s: Core, op: Op)
    ensures s.blockCache.Keys <= Step(env, rule, s, op).blockCache.Keys
  {
  }

  /** Any call: no recorded certificate is replaced, and while the tally is open everybody delivered so
      far is recorded and nobody else. */
  lemma StepConserves(env: Env, rule: VoteRule, s: Core, op: Op, h: Hash)
    requires Keyed(s) && (Stores(env, s, op, h) ==> h !in s.blockCache)
    ensures var t := Step(env, rule, s, op);
            && Keyed(t) && Keeps(SignsOf(s, h), SignsOf(t, h))
            && (BelowQuorum(env, t, h) ==> Recorded(t, h) == Recorded(s, h) + Delivered(env, s, op, h))
  {
    match op
    case ProposeOp(_, _, _, _) => ProposeConserves(env, rule, s, op, h);
    case ReceiveOp(_) => ReceiveConserves(env, rule, s, op, h);
    case VoteOp(_) => VoteOpConserves(env, rule, s, op, h);
    case HighestOp(_, _) => HighestConserves(env, rule, s, op, h);
  }

  lemma HighestConserves(env: Env, rule: VoteRule, s: Core, op: Op, h: Hash)
    requires Keyed(s) && op.HighestOp?
    ensures var t := Step(env, rule, s, op);
            && Keyed(t) && Keeps(SignsOf(s, h), SignsOf(t, h)) && Recorded(t, h) == Recorded(s, h)
            && Delivered(env, s, op, h) == {}
  {
    var t := Step(env, rule, s, op);
    assert t == s.(genericQC := t.genericQC, events := t.events);
  }

  lemma ReceiveConserves(env: Env, rule: VoteRule, s: Core, op: Op, h: Hash)
    requires Keyed(s) && op.ReceiveOp? && (Stores(env, s, op, h) ==> h !in s.blockCache)
    ensures var t := Step(env, rule, s, op);
            && Keyed(t) && Keeps(SignsOf(s, h), SignsOf(t, h))
            && Recorded(t, h) == Recorded(s, h) + Delivered(env, s, op, h)
  {
    ReceiveStores(env, rule, s, op.prop);
    StoringConserves(s, op.prop.block, Step(env, rule, s, op), h);
  }

  lemma VoteOpConserves(env: Env, rule: VoteRule, s: Core, op: Op, h: Hash)
    requires Keyed(s) && op.VoteOp?
    ensures var t := Step(env, rule, s, op);
            && Keyed(t) && Keeps(SignsOf(s, h), SignsOf(t, h))
            && (BelowQuorum(env, t, h) ==> Recorded(t, h) == Recorded(s, h) + Delivered(env, s, op, h))
  {
    VoteTally(env, s, op.vote);
    VoteConserves(env, s, op.vote, Step(env, rule, s, op), h);
  }

  /** A tally at the quorum cannot fall below it again. */
  lemma ClosedStaysClosed(env: Env, s: Core, t: Core, h: Hash)
    requires s.blockCache.Keys <= t.blockCache.Keys && Keeps(SignsOf(s, h), SignsOf(t, h))
    ensures BelowQuorum(env, t, h) ==> BelowQuorum(env, s, h)
  {
    var a, b := SignsOf(s, h), SignsOf(t, h);
    assert forall id :: id in a.Keys ==> id in a && id in b.Keys;
    SubsetCardinality(a.Keys, b.Keys);
  }

  // ---------------------------------------------------------------------------
  // Whole runs

  /** For a block stored at most once, over any calls in any order: while its tally is below the quorum,
      counted and parked voters together are exactly those recorded at first and all delivered since. */
  lemma {:induction false} TallyConservation(env: Env, rule: VoteRule, s: Core, ops: seq<Op>, h: Hash)
    requires Keyed(s) && StoredOnce(env, rule, s, ops, h)
    ensures Keyed(Run(env, rule, s, ops))
    ensures BelowQuorum(env, Run(env, rule, s, ops), h) ==>
              Recorded(Run(env, rule, s, ops), h) == Recorded(s, h) + AllDelivered(env, rule, s, ops, h)
  {
    if ops != [] {
      var before := ops[..|ops| - 1];
      TallyConservation(env, rule, s, before, h);
      var mid := Run(env, rule, s, before);
      StepConserves(env, rule, mid, ops[|ops| - 1], h);
      CacheGrows(env, rule, mid, ops[|ops| - 1]);
      ClosedStaysClosed(env, mid, Run(env, rule, s, ops), h);
    }
  }

  /** A recorded certificate stays, unchanged, for the rest of the run. */
  lemma {:induction false} CertsNeverReplaced(env: Env, rule: VoteRule, s: Core, ops: seq<Op>, h: Hash)
    requires Keyed(s) && StoredOnce(env, rule, s, ops, h)
    ensures Keyed(Run(env, rule, s, ops))
    ensures Keeps(SignsOf(s, h), SignsOf(Run(env, rule, s, ops), h))
  {
    if ops != [] {
      var before := ops[..|ops| - 1];
      CertsNeverReplaced(env, rule, s, before, h);
      StepConserves(env, rule, Run(env, rule, s, before), ops[|ops| - 1], h);
    }
  }

  // ---------------------------------------------------------------------------
  // A block stored again

  /** A proposal replaces whatever is stored under its hash: it keeps the recorded certificates exactly if the new
      block brings them all. */
  lemma SecondStoreKeepsIff(env: Env, rule: VoteRule, s: Core, prop: Proposal)
    ensures var h, t := prop.block.selfQc.blockHash, OnReceiveProposal(env, rule, s, prop).core;
            && SignsOf(t, h) == prop.block.selfQc.signs
            && (Keeps(SignsOf(s, h), SignsOf(t, h)) <==> Keeps(SignsOf(s, h), prop.block.selfQc.signs))
  {
    ReceiveStores(env, rule, s, prop);
  }

  lemma RunMore(env: Env, rule: VoteRule, s: Core, ops: seq<Op>, op: Op)
    ensures Run(env, rule, s, ops + [op]) == Step(env, rule, Run(env, rule, s, ops), op)
  {
    assert (ops + [op])[..|ops|] == ops;
  }

  lemma RunStores(env: Env, rule: VoteRule, s: Core, ops: seq<Op>, prop: Proposal)
    ensures StoreOf(Run(env, rule, s, ops), prop.block, Run(env, rule, s, ops + [ReceiveOp(prop)]))
  {
    RunMore(env, rule, s, ops, ReceiveOp(prop));
    ReceiveStores(env, rule, Run(env, rule, s, ops), prop);
  }

  lemma RunTallies(env: Env, rule: VoteRule, s: Core, ops: seq<Op>, vote: Vote)
    ensures SameTally(Run(env, rule, s, ops + [VoteOp(vote)]), TallyOnly(env, Run(env, rule, s, ops), vote))
  {
    RunMore(env, rule, s, ops, VoteOp(vote));
    VoteTally(env, Run(env, rule, s, ops), vote);
  }

  lemma StoredTwice(env: Env, a: Core, b: Core, c: Core, d: Core, block: Block, vote: Vote)
    requires Keyed(a) && StoreOf(a, block, b) && SameTally(c, TallyOnly(env, b, vote)) && StoreOf(c, block, d)
    requires vote.blockHash == block.selfQc.blockHash && vote.voter !in block.selfQc.signs
    requires |block.selfQc.signs| < GetQuorumSize(env.metadata)
    ensures vote.voter in SignsOf(c, vote.blockHash) && vote.voter !in SignsOf(d, vote.blockHash)
  {
    TallyEffect(b, vote, vote.blockHash);
  }

  /** A proposal, a vote for its block, and the proposal again: the vote was counted and is lost. */
  lemma RepeatLosesVote(env: Env, rule: VoteRule, prop: Proposal, vote: Vote)
    requires vote.blockHash == prop.block.selfQc.blockHash && vote.voter !in prop.block.selfQc.signs
    requires |prop.block.selfQc.signs| < GetQuorumSize(env.metadata)
    ensures var once := [ReceiveOp(prop)] + [VoteOp(vote)];
            && vote.voter in SignsOf(Run(env, rule, Initial(env), once), vote.blockHash)
            && vote.voter !in SignsOf(Run(env, rule, Initial(env), once + [ReceiveOp(prop)]), vote.blockHash)
  {
    var first, s := [ReceiveOp(prop)], Initial(env);
    var once := first + [VoteOp(vote)];
    RunStores(env, rule, s, [], prop);
    assert [] + first == first;
    RunTallies(env, rule, s, first, vote);
    RunStores(env, rule, s, once, prop);
    StoredTwice(env, Run(env, rule, s, []), Run(env, rule, s, first), Run(env, rule, s, once),
                Run(env, rule, s, once + [ReceiveOp(prop)]), prop.block, vote);
  }
}
