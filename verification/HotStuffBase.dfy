/** consensus/hotstuff.go: the guard in front of the tally. */
module HotStuffBase {
  import opened Types
  import opened Quorum
  import opened Entity
  import opened Replica
  import opened HotStuff
  import opened TallyRuns
  import opened Completion
  import opened BogusTally
  import Pacemaker

  /** A vote as it comes from the wire: the certificate may be missing. */
  datatype WireVote = WireVote(viewNumber: int, voter: ReplicaId, blockHash: Hash, cert: Option<PartCert>)

  /** The sender signed the hash, speaks for itself, and this replica is to lead the next view. */
  predicate Admits(env: Env, from: ReplicaId, v: WireVote)
    requires env.metadata.n > 0
  {
    && v.blockHash != [] && v.cert.Some?
    && VerifyIdentity(env, from, v.cert.value.signature, v.blockHash)
    && from == v.voter
    && Pacemaker.GetLeader(env.metadata.n, v.viewNumber) == env.id
  }

  method HandleVote(core: HotStuffCore, from: ReplicaId, v: WireVote)
    requires core.env.metadata.n > 0
    modifies core
    ensures core.View() ==
              if Admits(core.env, from, v)
              then OnProposalVote(core.env, old(core.View()), Vote(v.viewNumber, v.voter, v.blockHash, v.cert.value)).core
              else old(core.View())
  {
    if |v.blockHash| == 0 || v.cert.None? {
      return;
    }
    if !VerifyIdentity(core.env, from, v.cert.value.signature, v.blockHash) {
      return;
    }
    if from != v.voter {
      return;
    }
    if Pacemaker.GetLeader(core.env.metadata.n, v.viewNumber) != core.env.id {
      return;
    }
    var _ := core.OnProposalVote(Vote(v.viewNumber, v.voter, v.blockHash, v.cert.value));
  }

  /** The calls that reach a replica's tally: votes through the guard, its own proposals, and proposals whose
      tally, which no handler checks, holds real signatures only. */
  predicate Guarded(env: Env, op: Op)
    requires env.metadata.n > 0
  {
    match op
    case VoteOp(vote) => Admits(env, vote.voter, WireVote(vote.viewNumber, vote.voter, vote.blockHash, Some(vote.cert))) ||
                         vote == VoteProposal(env, vote.viewNumber, vote.blockHash)
    case ReceiveOp(prop) => VettedSigns(env, prop.block.selfQc.blockHash, prop.block.selfQc.signs)
    case _ => true
  }

  /** With the guard in place, every certificate a replica ever announces with QcFinish is one that
      VerifyQuorumCert accepts. */
  lemma GuardedRunsFinishVerified(env: Env, rule: VoteRule, ops: seq<Op>)
    requires 0 < env.metadata.n && 0 <= GetQuorumSize(env.metadata) < TWO63 && env.id in env.replicas
    requires forall i :: 0 <= i < |ops| ==> Guarded(env, ops[i])
    ensures FinishedVerify(env, Run(env, rule, Initial(env), ops).events)
  {
    forall i | 0 <= i < |ops|
      ensures VettedOp(env, ops[i])
    {
      assert Guarded(env, ops[i]);
    }
    FinishedQcVerifies(env, rule, Initial(env), ops);
  }

  /** Whatever the vote is worth: if the stored tally is one short of the quorum and none of its signatures is real,
      a single vote completes a certificate that is announced and that VerifyQuorumCert rejects. */
  lemma UnvettedTallyFinishes(env: Env, s: Core, vote: Vote)
    requires 2 <= GetQuorumSize(env.metadata) < TWO63 && Parked(s, vote.blockHash) == []
    requires vote.blockHash in s.blockCache && s.blockCache[vote.blockHash].selfQc.blockHash == vote.blockHash
    requires var qc := s.blockCache[vote.blockHash].selfQc;
             |qc.signs| == GetQuorumSize(env.metadata) - 1 && vote.voter !in qc.signs && VerifiedSigners(env, qc) == {}
    ensures var es := OnProposalVote(env, s, vote).core.events;
            es != [] && es[|es| - 1].QcFinishEvent? && !QcVerifies(env, es[|es| - 1].qc)
  {
    var t := Tally(s, vote);
    var before, after := s.blockCache[vote.blockHash].selfQc, t.blockCache[vote.blockHash].selfQc;
    assert after.signs == before.signs[vote.voter := vote.cert];
    assert VerifiedSigners(env, after) <= VerifiedSigners(env, before) + {vote.voter};
    SubsetCardinality(VerifiedSigners(env, after), {vote.voter});
  }

  /** As Guarded, but the tallies that proposals arrive with may hold anything. */
  predicate VotesGuarded(env: Env, op: Op)
    requires env.metadata.n > 0
  {
    op.VoteOp? ==> Guarded(env, op)
  }

  /** With the guard in place and the block of `h` stored at most once, a certificate announced for `h` passes
      VerifyQuorumCert exactly if it has a quorum of signers besides the bogus entries the block arrived with. */
  lemma GuardedFinishIff(env: Env, rule: VoteRule, ops: seq<Op>, h: Hash, i: nat)
    requires 0 < env.metadata.n && 0 <= GetQuorumSize(env.metadata) < TWO63 && env.id in env.replicas
    requires forall j :: 0 <= j < |ops| ==> VotesGuarded(env, ops[j])
    requires StoredOnce(env, rule, Initial(env), ops, h)
    requires var es := Run(env, rule, Initial(env), ops).events; i < |es| && Finishes(es[i], h)
    ensures var qc := Run(env, rule, Initial(env), ops).events[i].qc;
            QcVerifies(env, qc) <==>
            |qc.signs| - |BogusAtFirst(env, rule, Initial(env), ops, h)| >= GetQuorumSize(env.metadata)
  {
    forall j | 0 <= j < |ops|
      ensures VotesVetted(env, ops[j])
    {
      assert VotesGuarded(env, ops[j]);
    }
    FinishedVerifyIff(env, rule, Initial(env), ops, h, i);
  }

  lemma StoredCounts(env: Env, s: Core, block: Block, mid: Core, vote: Vote)
    requires Keyed(s) && s.voteSet == map[] && StoreOf(s, block, mid)
    requires vote.blockHash == block.selfQc.blockHash && vote.voter !in block.selfQc.signs
    requires |block.selfQc.signs| < GetQuorumSize(env.metadata)
    ensures Keyed(mid) && Counts(env, mid, vote) && Parked(mid, vote.blockHash) == []
    ensures mid.blockCache[vote.blockHash] == block
  {
  }

  /** A proposal whose tally is one short of the quorum, then one vote through the guard: QcFinish announces a
      certificate, which VerifyQuorumCert accepts exactly if nothing in that tally was bogus. */
  lemma TallyThenVote(env: Env, rule: VoteRule, prop: Proposal, vote: Vote)
    requires 0 < env.metadata.n && 0 < GetQuorumSize(env.metadata) < TWO63 && VotesGuarded(env, VoteOp(vote))
    requires env.id in env.replicas && vote.blockHash == prop.block.selfQc.blockHash
    requires |prop.block.selfQc.signs| == GetQuorumSize(env.metadata) - 1 && vote.voter !in prop.block.selfQc.signs
    ensures var es := Run(env, rule, Initial(env), [ReceiveOp(prop)] + [VoteOp(vote)]).events;
            && es != [] && Finishes(es[|es| - 1], vote.blockHash)
            && (QcVerifies(env, es[|es| - 1].qc) <==> Bogus(env, prop.block.selfQc) == {})
  {
    var s, first := Initial(env), [ReceiveOp(prop)];
    RunStores(env, rule, s, [], prop);
    assert [] + first == first;
    RunMore(env, rule, s, first, VoteOp(vote));
    StoredCounts(env, s, prop.block, Run(env, rule, s, first), vote);
    OneShort(env, Run(env, rule, s, first), vote);
  }

  /** The input at which the guard is not enough: four replicas, a child of genesis whose tally files the signature of
      replica 3 under 0 and 2, and then the vote of replica 3. */
  lemma GuardIsNotEnough(rule: VoteRule) returns (env: Env, ops: seq<Op>)
    ensures 0 < env.metadata.n && env.id in env.replicas && forall i :: 0 <= i < |ops| ==> VotesGuarded(env, ops[i])
    ensures |ops| == 2 && ops[0].ReceiveOp? && ops[1].VoteOp?
    ensures var es := Run(env, rule, Initial(env), ops).events;
            es != [] && es[|es| - 1].QcFinishEvent? && !QcVerifies(env, es[|es| - 1].qc)
  {
    env := Env(1, ConfigMetadata(4, 1), {0, 1, 2, 3}, bytes => bytes);
    var leaf := CreateLeaf(env, Initial(env), GenesisHash(env.digest), [], 1, 0, 0);
    var hash := leaf.selfQc.blockHash;
    var third := PartCert(3, Signature(3, hash));
    var tally := leaf.selfQc.(signs := map[0 := third, 2 := third]);
    var prop, vote := Proposal(0, leaf.(selfQc := tally)), Vote(0, 3, hash, third);
    ops := [ReceiveOp(prop)] + [VoteOp(vote)];
    assert |tally.signs.Keys| == |{0, 2}|;
    assert 0 in Bogus(env, tally);
    TallyThenVote(env, rule, prop, vote);
  }
}
