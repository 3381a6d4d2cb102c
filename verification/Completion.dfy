/** A block's certificate is announced once, when its tally first reaches the quorum, and verifies. */
module Completion {
  import opened Types
  import opened Quorum
  import opened Entity
  import opened Replica
  import opened TallyRuns

  // ---------------------------------------------------------------------------
  // How often QcFinish is notified

  function FinishCount(es: seq<Event>, h: Hash): nat {
    if es == [] then 0
    else
      var e := es[|es| - 1];
      FinishCount(es[..|es| - 1], h) + if e.QcFinishEvent? && e.qc.blockHash == h then 1 else 0
  }

  /** `fs` continues `es` without a QcFinish event. */
  predicate Quiet(es: seq<Event>, fs: seq<Event>) {
    es <= fs && forall i :: |es| <= i < |fs| ==> !fs[i].QcFinishEvent?
  }

  lemma {:induction false} QuietCount(es: seq<Event>, fs: seq<Event>, h: Hash)
    requires Quiet(es, fs)
    ensures FinishCount(fs, h) == FinishCount(es, h)
    decreases |fs|
  {
    if |es| < |fs| {
      var shorter := fs[..|fs| - 1];
      assert es <= shorter;
      QuietCount(es, shorter, h);
    } else {
      assert es == fs;
    }
  }

  lemma CountOne(es: seq<Event>, e: Event, h: Hash)
    ensures FinishCount(es + [e], h) == FinishCount(es, h) + if e.QcFinishEvent? && e.qc.blockHash == h then 1 else 0
  {
    assert (es + [e])[..|es|] == es;
  }

  lemma UpdateIsQuiet(env: Env, s: Core, block: Block)
    ensures Quiet(s.events, Update(env, s, block).core.events)
  {
  }

  lemma ReceiveIsQuiet(env: Env, rule: VoteRule, s: Core, prop: Proposal)
    ensures Quiet(s.events, OnReceiveProposal(env, rule, s, prop).core.events)
  {
    UpdateIsQuiet(env, StoreBlock(s, prop.block), prop.block);
  }

  lemma HighestIsQuiet(env: Env, s: Core, block: Block, qc: QuorumCert)
    ensures Quiet(s.events, UpdateHighestQC(env, s, block, qc).events)
  {
  }

  /** The vote takes the tally of `h` from below the quorum to at least the quorum. */
  predicate Closes(env: Env, s: Core, t: Core, h: Hash) {
    BelowQuorum(env, s, h) && !BelowQuorum(env, t, h)
  }

  lemma VoteFinishes(env: Env, s: Core, vote: Vote, h: Hash)
    requires Keyed(s)
    ensures var t := OnProposalVote(env, s, vote).core;
            FinishCount(t.events, h) == FinishCount(s.events, h) + if Closes(env, s, t, h) then 1 else 0
  {
    var t := OnProposalVote(env, s, vote).core;
    VoteTally(env, s, vote);
    VoteConserves(env, s, vote, t, vote.blockHash);
    if Counts(env, s, vote) {
      var x := Tally(s, vote);
      var block := x.blockCache[vote.blockHash];
      CountedElsewhere(env, s, vote, t, h);
      if |block.selfQc.signs| >= GetQuorumSize(env.metadata) {
        var y := UpdateHighestQC(env, x, block, block.selfQc);
        HighestIsQuiet(env, x, block, block.selfQc);
        QuietCount(x.events, y.events, h);
        CountOne(y.events, QcFinishEvent(block.proposer, block.selfQc), h);
      }
    }
  }

  lemma CountedElsewhere(env: Env, s: Core, vote: Vote, t: Core, h: Hash)
    requires Keyed(s) && Counts(env, s, vote) && SameTally(t, Tally(s, vote))
    ensures h != vote.blockHash ==> BelowQuorum(env, t, h) == BelowQuorum(env, s, h)
  {
    TallyEffect(s, vote, h);
  }

  /** A store that adds a block with fewer signers than the quorum closes no tally. */
  lemma StoringClosesNothing(env: Env, s: Core, block: Block, t: Core, h: Hash)
    requires StoreOf(s, block, t)
    requires h == block.selfQc.blockHash ==> h !in s.blockCache && |block.selfQc.signs| < GetQuorumSize(env.metadata)
    ensures BelowQuorum(env, t, h) == BelowQuorum(env, s, h)
  {
  }

  lemma ProposeFinishes(env: Env, rule: VoteRule, s: Core, op: Op, h: Hash)
    requires Keyed(s) && op.ProposeOp? && GetQuorumSize(env.metadata) > 0
    requires Stores(env, s, op, h) ==> h !in s.blockCache
    ensures var t := Step(env, rule, s, op);
            FinishCount(t.events, h) == FinishCount(s.events, h) + if Closes(env, s, t, h) then 1 else 0
  {
    var t := Step(env, rule, s, op);
    if Stored(env, s, op).Some? {
      var block := Stored(env, s, op).value;
      var u := Update(env, StoreBlock(s, block), block);
      ProposeStores(env, s, op);
      StoringClosesNothing(env, s, block, u.core, h);
      UpdateIsQuiet(env, StoreBlock(s, block), block);
      QuietCount(s.events, u.core.events, h);
      if u.ok {
        SelfVoteFinishes(env, u.core, op.curView, block, h);
      }
    }
  }

  lemma SelfVoteFinishes(env: Env, s: Core, curView: int, block: Block, h: Hash)
    requires Keyed(s) && block.selfQc.blockHash in s.blockCache
    ensures var t := SelfVote(env, s, curView, block).core;
            FinishCount(t.events, h) == FinishCount(s.events, h) + if Closes(env, s, t, h) then 1 else 0
  {
    var hash := block.selfQc.blockHash;
    var voted := Sign(s.(voteHeight := block.height), hash);
    var vote := VoteProposal(env, curView, hash);
    assert Keyed(voted);
    VoteFinishes(env, voted, vote, h);
    var o := OnProposalVote(env, voted, vote);
    assert Closes(env, voted, o.core, h) == Closes(env, s, o.core, h);
    if o.ok {
      CountOne(o.core.events, ProposeEvent(Proposal(curView, o.core.blockCache[hash])), h);
    }
  }

  /** Whatever block of `h` the call stores has fewer signers than the quorum. */
  predicate StartsBelow(env: Env, s: Core, op: Op, h: Hash) {
    Stores(env, s, op, h) ==> |Stored(env, s, op).value.selfQc.signs| < GetQuorumSize(env.metadata)
  }

  /** A call notifies QcFinish for `h` exactly if it takes the tally of `h` to the quorum. */
  lemma StepFinishes(env: Env, rule: VoteRule, s: Core, op: Op, h: Hash)
    requires Keyed(s) && GetQuorumSize(env.metadata) > 0
    requires (Stores(env, s, op, h) ==> h !in s.blockCache) && StartsBelow(env, s, op, h)
    ensures var t := Step(env, rule, s, op);
            FinishCount(t.events, h) == FinishCount(s.events, h) + if Closes(env, s, t, h) then 1 else 0
  {
    match op
    case ProposeOp(_, _, _, _) => ProposeFinishes(env, rule, s, op, h);
    case ReceiveOp(prop) =>
      ReceiveIsQuiet(env, rule, s, prop);
      QuietCount(s.events, Step(env, rule, s, op).events, h);
      ReceiveStores(env, rule, s, prop);
      StoringClosesNothing(env, s, prop.block, Step(env, rule, s, op), h);
    case VoteOp(vote) => VoteFinishes(env, s, vote, h);
    case HighestOp(block, qc) =>
      HighestIsQuiet(env, s, block, qc);
      QuietCount(s.events, Step(env, rule, s, op).events, h);
  }

  predicate AlwaysStartsBelow(env: Env, rule: VoteRule, s: Core, ops: seq<Op>, h: Hash) {
    ops == [] ||
    var before := ops[..|ops| - 1];
    AlwaysStartsBelow(env, rule, s, before, h) && StartsBelow(env, Run(env, rule, s, before), ops[|ops| - 1], h)
  }

  /** Over any run in which the block of `h` is stored at most once and starts below the quorum, QcFinish
      is notified once if the tally gets to the quorum and not at all otherwise. */
  lemma {:induction false} QcFinishOnce(env: Env, rule: VoteRule, s: Core, ops: seq<Op>, h: Hash)
    requires Keyed(s) && GetQuorumSize(env.metadata) > 0
    requires StoredOnce(env, rule, s, ops, h) && AlwaysStartsBelow(env, rule, s, ops, h)
    ensures var t := Run(env, rule, s, ops);
            && Keyed(t) && (BelowQuorum(env, t, h) ==> BelowQuorum(env, s, h))
            && FinishCount(t.events, h) == FinishCount(s.events, h) + if Closes(env, s, t, h) then 1 else 0
  {
    if ops != [] {
      var before, op := ops[..|ops| - 1], ops[|ops| - 1];
      QcFinishOnce(env, rule, s, before, h);
      var mid := Run(env, rule, s, before);
      StepFinishes(env, rule, mid, op, h);
      StepConserves(env, rule, mid, op, h);
      CacheGrows(env, rule, mid, op);
      ClosedStaysClosed(env, mid, Step(env, rule, mid, op), h);
    }
  }

  // ---------------------------------------------------------------------------
  // The finished certificate verifies

  predicate VettedSigns(env: Env, h: Hash, signs: map<ReplicaId, PartCert>) {
    forall id :: id in signs ==> VerifyIdentity(env, id, signs[id].signature, h)
  }

  predicate VettedVotes(env: Env, h: Hash, votes: seq<Vote>) {
    forall i :: 0 <= i < |votes| ==> VerifyIdentity(env, votes[i].voter, votes[i].cert.signature, h)
  }

  /** Every counted or parked vote is a known replica's own signature on the block's hash. */
  predicate Vetted(env: Env, s: Core) {
    && Keyed(s)
    && (forall h :: h in s.blockCache ==> VettedSigns(env, h, s.blockCache[h].selfQc.signs))
    && (forall h :: h in s.voteSet ==> VettedVotes(env, h, s.voteSet[h]))
  }

  /** Votes passed handleVote or are the replica's own, and blocks arrive with certificates that verify. */
  predicate VettedOp(env: Env, op: Op) {
    match op
    case ProposeOp(_, _, _, _) => env.id in env.replicas
    case ReceiveOp(prop) => VettedSigns(env, prop.block.selfQc.blockHash, prop.block.selfQc.signs)
    case VoteOp(vote) => VerifyIdentity(env, vote.voter, vote.cert.signature, vote.blockHash)
    case HighestOp(_, _) => true
  }

  predicate FinishedVerify(env: Env, es: seq<Event>) {
    forall i :: 0 <= i < |es| && es[i].QcFinishEvent? ==> QcVerifies(env, es[i].qc)
  }

  lemma {:induction false} ApplyVotesVetted(env: Env, h: Hash, signs: map<ReplicaId, PartCert>, votes: seq<Vote>)
    requires VettedSigns(env, h, signs) && VettedVotes(env, h, votes)
    ensures VettedSigns(env, h, ApplyVotes(signs, votes))
    decreases |votes|
  {
    if votes != [] {
      var next := if votes[0].voter in signs then signs else signs[votes[0].voter := votes[0].cert];
      assert VettedVotes(env, h, votes[1..]);
      ApplyVotesVetted(env, h, next, votes[1..]);
    }
  }

  lemma VettedQuorumVerifies(env: Env, qc: QuorumCert)
    requires VettedSigns(env, qc.blockHash, qc.signs)
    requires 0 <= GetQuorumSize(env.metadata) < TWO63 && |qc.signs| >= GetQuorumSize(env.metadata)
    ensures QcVerifies(env, qc)
  {
    forall id | id in qc.signs.Keys
      ensures id in VerifiedSigners(env, qc)
    {
      assert id in qc.signs;
    }
    assert VerifiedSigners(env, qc) == qc.signs.Keys;
  }

  lemma TallyStaysVetted(env: Env, s: Core, vote: Vote)
    requires Vetted(env, s) && vote.blockHash in s.blockCache
    requires VerifyIdentity(env, vote.voter, vote.cert.signature, vote.blockHash)
    ensures Vetted(env, Tally(s, vote))
  {
    var h := vote.blockHash;
    ApplyVotesVetted(env, h, s.blockCache[h].selfQc.signs[vote.voter := vote.cert], Parked(s, h));
  }

  lemma ParkStaysVetted(env: Env, s: Core, vote: Vote)
    requires Vetted(env, s) && VerifyIdentity(env, vote.voter, vote.cert.signature, vote.blockHash)
    ensures Vetted(env, AddVoteMsg(s, vote))
  {
    assert VettedVotes(env, vote.blockHash, Parked(s, vote.blockHash) + [vote]);
  }

  lemma SameTallyVetted(env: Env, s: Core, t: Core)
    requires Vetted(env, s) && SameTally(s, t)
    ensures Vetted(env, t)
  {
  }

  lemma VoteStaysVetted(env: Env, s: Core, vote: Vote)
    requires Vetted(env, s) && FinishedVerify(env, s.events) && 0 <= GetQuorumSize(env.metadata) < TWO63
    requires VerifyIdentity(env, vote.voter, vote.cert.signature, vote.blockHash)
    ensures var t := OnProposalVote(env, s, vote).core; Vetted(env, t) && FinishedVerify(env, t.events)
  {
    var t := OnProposalVote(env, s, vote).core;
    VoteTally(env, s, vote);
    if vote.blockHash !in s.blockCache {
      ParkStaysVetted(env, s, vote);
    } else if Counts(env, s, vote) {
      var x := Tally(s, vote);
      TallyStaysVetted(env, s, vote);
      var qc := x.blockCache[vote.blockHash].selfQc;
      if |qc.signs| >= GetQuorumSize(env.metadata) {
        VettedQuorumVerifies(env, qc);
      }
    }
    SameTallyVetted(env, TallyOnly(env, s, vote), t);
  }

  lemma QuietStaysFinished(env: Env, es: seq<Event>, fs: seq<Event>)
    requires FinishedVerify(env, es) && Quiet(es, fs)
    ensures FinishedVerify(env, fs)
  {
    forall i | 0 <= i < |fs| && fs[i].QcFinishEvent?
      ensures QcVerifies(env, fs[i].qc)
    {
      assert fs[i] == es[i];
    }
  }

  lemma StoreStaysVetted(env: Env, s: Core, block: Block, t: Core)
    requires Vetted(env, s) && StoreOf(s, block, t) && VettedSigns(env, block.selfQc.blockHash, block.selfQc.signs)
    ensures Vetted(env, t)
  {
  }

  lemma ProposeStaysVetted(env: Env, s: Core, op: Op)
    requires Vetted(env, s) && FinishedVerify(env, s.events) && 0 <= GetQuorumSize(env.metadata) < TWO63
    requires op.ProposeOp? && VettedOp(env, op)
    ensures var t := Step(env, Meant, s, op); Vetted(env, t) && FinishedVerify(env, t.events)
  {
    if Stored(env, s, op).Some? {
      var block := Stored(env, s, op).value;
      var hash, u := block.selfQc.blockHash, Update(env, StoreBlock(s, block), block);
      ProposeStores(env, s, op);
      UpdateIsQuiet(env, StoreBlock(s, block), block);
      QuietStaysFinished(env, s.events, u.core.events);
      StoreStaysVetted(env, s, block, u.core);
      if u.ok {
        var voted := Sign(u.core.(voteHeight := block.height), hash);
        SameTallyVetted(env, u.core, voted);
        VoteStaysVetted(env, voted, VoteProposal(env, op.curView, hash));
        var o := OnProposalVote(env, voted, VoteProposal(env, op.curView, hash));
        SameTallyVetted(env, o.core, Step(env, Meant, s, op));
        QuietStaysFinished(env, o.core.events, Step(env, Meant, s, op).events);
      }
    }
  }

  lemma StepStaysVetted(env: Env, rule: VoteRule, s: Core, op: Op)
    requires Vetted(env, s) && FinishedVerify(env, s.events) && 0 <= GetQuorumSize(env.metadata) < TWO63
    requires VettedOp(env, op)
    ensures var t := Step(env, rule, s, op); Vetted(env, t) && FinishedVerify(env, t.events)
  {
    match op
    case ProposeOp(_, _, _, _) => ProposeStaysVetted(env, s, op);
    case ReceiveOp(prop) =>
      ReceiveStores(env, rule, s, prop);
      StoreStaysVetted(env, s, prop.block, Step(env, rule, s, op));
      ReceiveIsQuiet(env, rule, s, prop);
      QuietStaysFinished(env, s.events, Step(env, rule, s, op).events);
    case VoteOp(vote) => VoteStaysVetted(env, s, vote);
    case HighestOp(block, qc) =>
      HighestIsQuiet(env, s, block, qc);
      QuietStaysFinished(env, s.events, Step(env, rule, s, op).events);
      SameTallyVetted(env, s, Step(env, rule, s, op));
  }

  /** In every run of vetted calls, every certificate announced by QcFinish passes VerifyQuorumCert. */
  lemma {:induction false} FinishedQcVerifies(env: Env, rule: VoteRule, s: Core, ops: seq<Op>)
    requires Vetted(env, s) && FinishedVerify(env, s.events) && 0 <= GetQuorumSize(env.metadata) < TWO63
    requires forall i :: 0 <= i < |ops| ==> VettedOp(env, ops[i])
    ensures var t := Run(env, rule, s, ops); Vetted(env, t) && FinishedVerify(env, t.events)
  {
    if ops != [] {
      FinishedQcVerifies(env, rule, s, ops[..|ops| - 1]);
      StepStaysVetted(env, rule, Run(env, rule, s, ops[..|ops| - 1]), ops[|ops| - 1]);
    }
  }
}
