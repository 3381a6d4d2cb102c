/** The tally that a proposal arrives with is checked by no handler. Its entries that are no known replica's own
    signature stay in it and count towards the quorum: exactly when the finished certificate then verifies. */
module BogusTally {
  import opened Types
  import opened Quorum
  import opened Entity
  import opened Replica
  import opened TallyRuns
  import opened Completion

  /** The entries that VerifyQuorumCert does not count. */
  function Bogus(env: Env, qc: QuorumCert): set<ReplicaId> {
    qc.signs.Keys - VerifiedSigners(env, qc)
  }

  lemma VerifiesIff(env: Env, qc: QuorumCert)
    requires 0 <= GetQuorumSize(env.metadata) < TWO63
    ensures QcVerifies(env, qc) <==> |qc.signs| - |Bogus(env, qc)| >= GetQuorumSize(env.metadata)
  {
    QcVerifiesIffEnoughSigners(env, qc);
    assert qc.signs.Keys == VerifiedSigners(env, qc) + Bogus(env, qc);
    assert |qc.signs.Keys| == |qc.signs|;
  }

  // ---------------------------------------------------------------------------
  // One call

  predicate Finishes(e: Event, h: Hash) {
    e.QcFinishEvent? && e.qc.blockHash == h
  }

  lemma AddsNoBogus(env: Env, qc: QuorumCert, id: ReplicaId, cert: PartCert)
    requires id !in qc.signs && VerifyIdentity(env, id, cert.signature, qc.blockHash)
    ensures Bogus(env, qc.(signs := qc.signs[id := cert])) == Bogus(env, qc)
  {
  }

  lemma {:induction false} ParkedAddNoBogus(env: Env, qc: QuorumCert, votes: seq<Vote>)
    requires VettedVotes(env, qc.blockHash, votes)
    ensures Bogus(env, qc.(signs := ApplyVotes(qc.signs, votes))) == Bogus(env, qc)
    decreases |votes|
  {
    if votes != [] {
      var v := votes[0];
      assert VettedVotes(env, qc.blockHash, votes[1..]);
      if v.voter in qc.signs {
        ParkedAddNoBogus(env, qc, votes[1..]);
      } else {
        AddsNoBogus(env, qc, v.voter, v.cert);
        ParkedAddNoBogus(env, qc.(signs := qc.signs[v.voter := v.cert]), votes[1..]);
      }
    }
  }

  predicate VettedVote(env: Env, vote: Vote) {
    VerifyIdentity(env, vote.voter, vote.cert.signature, vote.blockHash)
  }

  lemma TallyAddsNoBogus(env: Env, s: Core, vote: Vote)
    requires Keyed(s) && vote.blockHash in s.blockCache && vote.voter !in SignsOf(s, vote.blockHash)
    requires VettedVote(env, vote) && VettedVotes(env, vote.blockHash, Parked(s, vote.blockHash))
    ensures Bogus(env, Tally(s, vote).blockCache[vote.blockHash].selfQc) ==
            Bogus(env, s.blockCache[vote.blockHash].selfQc)
  {
    var qc := s.blockCache[vote.blockHash].selfQc;
    AddsNoBogus(env, qc, vote.voter, vote.cert);
    ParkedAddNoBogus(env, qc.(signs := qc.signs[vote.voter := vote.cert]), Parked(s, vote.blockHash));
  }

  /** With one signer more than a stored tally below the quorum, a certificate of the quorum has no bogus entry
      to spare. */
  lemma LastSignerVerifiesIff(env: Env, stored: QuorumCert, qc: QuorumCert, voter: ReplicaId)
    requires 0 <= GetQuorumSize(env.metadata) < TWO63
    requires |stored.signs| < GetQuorumSize(env.metadata) <= |qc.signs|
    requires qc.signs.Keys == stored.signs.Keys + {voter} && Bogus(env, qc) == Bogus(env, stored)
    ensures QcVerifies(env, qc) <==> Bogus(env, stored) == {}
  {
    VerifiesIff(env, qc);
    assert |qc.signs.Keys| == |qc.signs| && |stored.signs.Keys| == |stored.signs|;
  }

  lemma CountedVote(env: Env, s: Core, vote: Vote)
    requires Counts(env, s, vote)
    ensures var t, x := OnProposalVote(env, s, vote).core, Tally(s, vote);
            var qc := x.blockCache[vote.blockHash].selfQc;
            && t.blockCache == x.blockCache
            && (|qc.signs| >= GetQuorumSize(env.metadata) ==>
                  && t.events != []
                  && t.events[|t.events| - 1] == QcFinishEvent(s.blockCache[vote.blockHash].proposer, qc))
  {
  }

  lemma TallyVerifiesIff(env: Env, s: Core, vote: Vote, stored: QuorumCert, qc: QuorumCert)
    requires Keyed(s) && Counts(env, s, vote) && 0 <= GetQuorumSize(env.metadata) < TWO63
    requires VettedVote(env, vote) && VettedVotes(env, vote.blockHash, Parked(s, vote.blockHash))
    requires stored == s.blockCache[vote.blockHash].selfQc && qc == Tally(s, vote).blockCache[vote.blockHash].selfQc
    ensures qc.signs.Keys == Recorded(s, vote.blockHash) + {vote.voter} && Bogus(env, qc) == Bogus(env, stored)
    ensures QcVerifies(env, qc) <==> |qc.signs.Keys| - |Bogus(env, stored)| >= GetQuorumSize(env.metadata)
    ensures Parked(s, vote.blockHash) == [] && |qc.signs| >= GetQuorumSize(env.metadata) ==>
              (QcVerifies(env, qc) <==> Bogus(env, stored) == {})
  {
    TallyEffect(s, vote, vote.blockHash);
    TallyAddsNoBogus(env, s, vote);
    VerifiesIff(env, qc);
    assert |qc.signs.Keys| == |qc.signs|;
    if Parked(s, vote.blockHash) == [] && |qc.signs| >= GetQuorumSize(env.metadata) {
      assert VotersOf([]) == {};
      LastSignerVerifiesIff(env, stored, qc, vote.voter);
    }
  }

  /** A counted vote leaves a certificate signed by everybody recorded and the voter. It verifies exactly if the
      bogus entries of the stored tally leave a quorum; completed with nothing parked, exactly if there are none. */
  lemma CompletedVerifiesIff(env: Env, s: Core, vote: Vote)
    requires Keyed(s) && Counts(env, s, vote) && 0 <= GetQuorumSize(env.metadata) < TWO63
    requires VettedVote(env, vote) && VettedVotes(env, vote.blockHash, Parked(s, vote.blockHash))
    ensures var t, h, q := OnProposalVote(env, s, vote).core, vote.blockHash, GetQuorumSize(env.metadata);
            var stored, qc := s.blockCache[h].selfQc, t.blockCache[h].selfQc;
            && qc.signs.Keys == Recorded(s, h) + {vote.voter}
            && Bogus(env, qc) == Bogus(env, stored)
            && (QcVerifies(env, qc) <==> |Recorded(s, h) + {vote.voter}| - |Bogus(env, stored)| >= q)
            && (Parked(s, h) == [] && |qc.signs| >= q ==> (QcVerifies(env, qc) <==> Bogus(env, stored) == {}))
            && (|qc.signs| >= q ==>
                  t.events != [] && t.events[|t.events| - 1] == QcFinishEvent(s.blockCache[h].proposer, qc))
  {
    var h := vote.blockHash;
    CountedVote(env, s, vote);
    TallyVerifiesIff(env, s, vote, s.blockCache[h].selfQc, Tally(s, vote).blockCache[h].selfQc);
  }

  lemma NothingParked(s: Core, h: Hash)
    requires Parked(s, h) == []
    ensures Recorded(s, h) == SignsOf(s, h).Keys
  {
    assert VotersOf([]) == {};
  }

  lemma OneMore(before: map<ReplicaId, PartCert>, after: map<ReplicaId, PartCert>, id: ReplicaId)
    requires after.Keys == before.Keys + {id} && id !in before
    ensures |after| == |before| + 1
  {
    assert |after.Keys| == |after| && |before.Keys| == |before|;
  }

  /** A vote for a tally that is one short of the quorum, with nothing parked. */
  lemma OneShort(env: Env, s: Core, vote: Vote)
    requires Keyed(s) && Counts(env, s, vote) && 0 < GetQuorumSize(env.metadata) < TWO63
    requires VettedVote(env, vote) && Parked(s, vote.blockHash) == []
    requires |SignsOf(s, vote.blockHash)| == GetQuorumSize(env.metadata) - 1
    ensures var es := OnProposalVote(env, s, vote).core.events;
            && es != [] && Finishes(es[|es| - 1], vote.blockHash)
            && (QcVerifies(env, es[|es| - 1].qc) <==> Bogus(env, s.blockCache[vote.blockHash].selfQc) == {})
  {
    var h := vote.blockHash;
    CompletedVerifiesIff(env, s, vote);
    NothingParked(s, h);
    var t := OnProposalVote(env, s, vote).core;
    OneMore(s.blockCache[h].selfQc.signs, t.blockCache[h].selfQc.signs, vote.voter);
    CountedVote(env, s, vote);
  }

  // ---------------------------------------------------------------------------
  // Whole runs

  predicate VettedParked(env: Env, s: Core) {
    forall h :: h in s.voteSet ==> VettedVotes(env, h, s.voteSet[h])
  }

  /** The votes are vetted; the tallies that blocks arrive with may be anything. */
  predicate VotesVetted(env: Env, op: Op) {
    match op
    case ProposeOp(_, _, _, _) => env.id in env.replicas
    case VoteOp(vote) => VettedVote(env, vote)
    case _ => true
  }

  /** Every certificate announced for `h` has exactly these bogus entries. */
  predicate FinishedWith(env: Env, es: seq<Event>, h: Hash, bogus: set<ReplicaId>) {
    forall i :: 0 <= i < |es| && Finishes(es[i], h) ==> Bogus(env, es[i].qc) == bogus
  }

  predicate Unfinished(es: seq<Event>, h: Hash) {
    forall i :: 0 <= i < |es| ==> !Finishes(es[i], h)
  }

  /** The tally of `h` and all its announced certificates have exactly these bogus entries. */
  predicate Tracks(env: Env, s: Core, h: Hash, bogus: set<ReplicaId>) {
    && Keyed(s) && VettedParked(env, s)
    && (if h in s.blockCache
        then Bogus(env, s.blockCache[h].selfQc) == bogus && FinishedWith(env, s.events, h, bogus)
        else Unfinished(s.events, h))
  }

  /** The bogus entries of the tally with which the block of `h` was stored. */
  function BogusAtFirst(env: Env, rule: VoteRule, s: Core, ops: seq<Op>, h: Hash): set<ReplicaId> {
    if ops == [] then
      if h in s.blockCache then Bogus(env, s.blockCache[h].selfQc) else {}
    else
      var before, op := ops[..|ops| - 1], ops[|ops| - 1];
      var mid := Run(env, rule, s, before);
      if h !in mid.blockCache && Stores(env, mid, op, h) then Bogus(env, Stored(env, mid, op).value.selfQc)
      else BogusAtFirst(env, rule, s, before, h)
  }

  lemma QuietFinished(env: Env, es: seq<Event>, fs: seq<Event>, h: Hash, bogus: set<ReplicaId>)
    requires Quiet(es, fs)
    ensures FinishedWith(env, es, h, bogus) ==> FinishedWith(env, fs, h, bogus)
    ensures Unfinished(es, h) ==> Unfinished(fs, h)
  {
    assert forall i :: 0 <= i < |fs| && Finishes(fs[i], h) ==> i < |es| && es[i] == fs[i];
  }

  lemma QuietTracks(env: Env, s: Core, t: Core, h: Hash, bogus: set<ReplicaId>)
    requires Tracks(env, s, h, bogus) && SameTally(s, t) && Quiet(s.events, t.events)
    ensures Tracks(env, t, h, bogus)
  {
    QuietFinished(env, s.events, t.events, h, bogus);
  }

  lemma StoreTracks(env: Env, s: Core, block: Block, t: Core, h: Hash, bogus: set<ReplicaId>)
    requires Tracks(env, s, h, bogus) && StoreOf(s, block, t) && Quiet(s.events, t.events)
    requires block.selfQc.blockHash == h ==> h !in s.blockCache
    ensures Tracks(env, t, h, if block.selfQc.blockHash == h then Bogus(env, block.selfQc) else bogus)
  {
    QuietFinished(env, s.events, t.events, h, bogus);
  }

  lemma ParkTracks(env: Env, s: Core, vote: Vote, h: Hash, bogus: set<ReplicaId>)
    requires Tracks(env, s, h, bogus) && VettedVote(env, vote)
    ensures Tracks(env, AddVoteMsg(s, vote), h, bogus)
  {
    assert VettedVotes(env, vote.blockHash, Parked(s, vote.blockHash) + [vote]);
  }

  lemma CountTracks(env: Env, s: Core, vote: Vote, h: Hash, bogus: set<ReplicaId>)
    requires Tracks(env, s, h, bogus) && VettedVote(env, vote) && Counts(env, s, vote)
    ensures Tracks(env, Tally(s, vote), h, bogus)
  {
    TallyEffect(s, vote, h);
    TallyAddsNoBogus(env, s, vote);
  }

  lemma AnnounceTracks(env: Env, s: Core, block: Block, t: Core, h: Hash, bogus: set<ReplicaId>)
    requires Tracks(env, s, h, bogus) && block.selfQc.blockHash in s.blockCache
    requires s.blockCache[block.selfQc.blockHash] == block && SameTally(s, t)
    requires t.events == s.events + [QcFinishEvent(block.proposer, block.selfQc)]
    ensures Tracks(env, t, h, bogus)
  {
    assert forall i :: 0 <= i < |s.events| ==> t.events[i] == s.events[i];
  }

  lemma CompleteTracks(env: Env, x: Core, s: Core, vote: Vote, h: Hash, bogus: set<ReplicaId>)
    requires Counts(env, s, vote) && x == Tally(s, vote) && Tracks(env, x, h, bogus)
    ensures Tracks(env, OnProposalVote(env, s, vote).core, h, bogus)
  {
    var block := x.blockCache[vote.blockHash];
    if |block.selfQc.signs| >= GetQuorumSize(env.metadata) {
      var y := UpdateHighestQC(env, x, block, block.selfQc);
      HighestIsQuiet(env, x, block, block.selfQc);
      QuietTracks(env, x, y, h, bogus);
      AnnounceTracks(env, y, block, OnProposalVote(env, s, vote).core, h, bogus);
    }
  }

  lemma VoteTracks(env: Env, s: Core, vote: Vote, h: Hash, bogus: set<ReplicaId>)
    requires Tracks(env, s, h, bogus) && VettedVote(env, vote)
    ensures Tracks(env, OnProposalVote(env, s, vote).core, h, bogus)
  {
    if vote.blockHash !in s.blockCache {
      ParkTracks(env, s, vote, h, bogus);
    } else if Counts(env, s, vote) {
      CountTracks(env, s, vote, h, bogus);
      CompleteTracks(env, Tally(s, vote), s, vote, h, bogus);
    }
  }

  lemma ProposeTracks(env: Env, rule: VoteRule, s: Core, op: Op, h: Hash, bogus: set<ReplicaId>)
    requires Tracks(env, s, h, bogus) && op.ProposeOp? && VotesVetted(env, op)
    requires Stores(env, s, op, h) ==> h !in s.blockCache
    ensures Tracks(env, Step(env, rule, s, op), h,
                   if Stores(env, s, op, h) then Bogus(env, Stored(env, s, op).value.selfQc) else bogus)
  {
    if Stored(env, s, op).Some? {
      var block := Stored(env, s, op).value;
      var u := Update(env, StoreBlock(s, block), block);
      var after := if block.selfQc.blockHash == h then Bogus(env, block.selfQc) else bogus;
      ProposeStores(env, s, op);
      UpdateIsQuiet(env, StoreBlock(s, block), block);
      StoreTracks(env, s, block, u.core, h, bogus);
      if u.ok {
        SelfVoteTracks(env, u.core, op.curView, block, h, after);
      }
    }
  }

  lemma SelfVoteTracks(env: Env, s: Core, curView: int, block: Block, h: Hash, bogus: set<ReplicaId>)
    requires Tracks(env, s, h, bogus) && env.id in env.replicas && block.selfQc.blockHash in s.blockCache
    ensures Tracks(env, SelfVote(env, s, curView, block).core, h, bogus)
  {
    var hash := block.selfQc.blockHash;
    var voted := Sign(s.(voteHeight := block.height), hash);
    var o := OnProposalVote(env, voted, VoteProposal(env, curView, hash));
    QuietTracks(env, s, voted, h, bogus);
    VoteTracks(env, voted, VoteProposal(env, curView, hash), h, bogus);
    QuietTracks(env, o.core, SelfVote(env, s, curView, block).core, h, bogus);
  }

  lemma StepTracks(env: Env, rule: VoteRule, s: Core, op: Op, h: Hash, bogus: set<ReplicaId>)
    requires Tracks(env, s, h, bogus) && VotesVetted(env, op) && (Stores(env, s, op, h) ==> h !in s.blockCache)
    ensures Tracks(env, Step(env, rule, s, op), h,
                   if Stores(env, s, op, h) then Bogus(env, Stored(env, s, op).value.selfQc) else bogus)
  {
    match op
    case ProposeOp(_, _, _, _) => ProposeTracks(env, rule, s, op, h, bogus);
    case ReceiveOp(prop) =>
      ReceiveStores(env, rule, s, prop);
      ReceiveIsQuiet(env, rule, s, prop);
      StoreTracks(env, s, prop.block, Step(env, rule, s, op), h, bogus);
    case VoteOp(vote) => VoteTracks(env, s, vote, h, bogus);
    case HighestOp(block, qc) =>
      HighestIsQuiet(env, s, block, qc);
      QuietTracks(env, s, Step(env, rule, s, op), h, bogus);
  }

  /** Over any run of vetted votes in which the block of `h` is stored at most once, the bogus entries of its
      tally are those it was stored with. */
  lemma {:induction false} BogusStays(env: Env, rule: VoteRule, s: Core, ops: seq<Op>, h: Hash)
    requires Keyed(s) && VettedParked(env, s) && Unfinished(s.events, h) && StoredOnce(env, rule, s, ops, h)
    requires forall i :: 0 <= i < |ops| ==> VotesVetted(env, ops[i])
    ensures Tracks(env, Run(env, rule, s, ops), h, BogusAtFirst(env, rule, s, ops, h))
  {
    if ops != [] {
      var before := ops[..|ops| - 1];
      BogusStays(env, rule, s, before, h);
      StepTracks(env, rule, Run(env, rule, s, before), ops[|ops| - 1], h, BogusAtFirst(env, rule, s, before, h));
    }
  }

  /** Over such a run, a certificate announced for `h` verifies exactly if it has a quorum of signers besides the
      bogus entries that the block was stored with. */
  lemma FinishedVerifyIff(env: Env, rule: VoteRule, s: Core, ops: seq<Op>, h: Hash, i: nat)
    requires 0 <= GetQuorumSize(env.metadata) < TWO63
    requires Keyed(s) && VettedParked(env, s) && Unfinished(s.events, h) && StoredOnce(env, rule, s, ops, h)
    requires forall j :: 0 <= j < |ops| ==> VotesVetted(env, ops[j])
    requires var es := Run(env, rule, s, ops).events; i < |es| && Finishes(es[i], h)
    ensures var qc := Run(env, rule, s, ops).events[i].qc;
            QcVerifies(env, qc) <==>
            |qc.signs| - |BogusAtFirst(env, rule, s, ops, h)| >= GetQuorumSize(env.metadata)
  {
    BogusStays(env, rule, s, ops, h);
    var t := Run(env, rule, s, ops);
    assert h in t.blockCache;
    VerifiesIff(env, t.events[i].qc);
  }
}
