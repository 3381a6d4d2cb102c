/** What the pacemaker guarantees over any sequence of its handlers. */
module PacemakerRuns {
  import opened Types
  import opened Quorum
  import opened Replica
  import opened Pacemaker
  import TallyRuns

  /** A handler call. `CoreEv` stands for anything the core does on its own. */
  datatype PMEvent =
    | NextSyncEv(status: int -> bool)
    | ProposeEv(viewNumber: int, block: Block, status: int -> bool)
    | ProposalEv(viewNumber: int, vote: Vote, status: int -> bool)
    | NewViewEv(id: ReplicaId, nv: NewView)
    | QcFinishEv(qc: QuorumCert)
    | QcHighEv(view: int)
    | BeatEv(timestamp: int)
    | SubmitEv(cmds: Bytes)
    | CoreEv(core: Core)

  function Handle(env: Env, p: PM, e: PMEvent): PM
    requires Seated(env)
  {
    match e
    case NextSyncEv(status) => OnNextSyncView(env, p, status)
    case ProposeEv(viewNumber, block, status) => OnProposeEvent(env, p, viewNumber, block, status)
    case ProposalEv(viewNumber, vote, status) => Pacemaker.OnReceiveProposal(env, p, viewNumber, vote, status)
    case NewViewEv(id, nv) => OnReceiveNewView(env, p, id, nv)
    case QcFinishEv(qc) => OnQcFinishEvent(env, p, qc)
    case QcHighEv(view) => UpdateQcHigh(p, view)
    case BeatEv(timestamp) => OnBeat(env, p, timestamp)
    case SubmitEv(cmds) => p.(queue := p.queue + [cmds])
    case CoreEv(core) => p.(core := core)
  }

  function Run(env: Env, es: seq<PMEvent>): PM
    requires Seated(env)
  {
    if es == [] then Initially(env) else Handle(env, Run(env, es[..|es| - 1]), es[|es| - 1])
  }

  // ---------------------------------------------------------------------------
  // New-view quorums

  predicate NoDuplicates(s: seq<int>) {
    forall i, j :: 0 <= i < j < |s| ==> s[i] != s[j]
  }

  /** The current view's messages have reached the quorum. */
  predicate QuorumAt(env: Env, p: PM, v: int) {
    env.metadata.n - env.metadata.f >= 1 && v in p.views && |p.views[v]| >= env.metadata.n - env.metadata.f
  }

  predicate PMInv(env: Env, p: PM) {
    && p.curView >= 0
    && (forall v :: v in p.views ==> v <= p.curView)
    && (forall v, id :: v in p.views && id in p.views[v] ==> p.views[v][id].viewNumber == v)
    && (forall i :: 0 <= i < |p.fired| ==> p.fired[i] <= p.curView)
    && NoDuplicates(p.fired)
    && (p.curView in p.fired <==> QuorumAt(env, p, p.curView))
  }

  /** The view only moves up and nothing is gathered or announced. */
  predicate ViewMoves(p: PM, t: PM) {
    p.curView <= t.curView && t.views == p.views && t.fired == p.fired
  }

  lemma ViewMovesKeeps(env: Env, p: PM, t: PM)
    requires PMInv(env, p) && ViewMoves(p, t)
    ensures PMInv(env, t)
  {
  }

  lemma ClearKeeps(env: Env, p: PM)
    requires PMInv(env, p)
    ensures PMInv(env, ClearViews(p)) && ClearViews(p).curView == p.curView
  {
  }

  /** A message completes the quorum of its view exactly when it takes the number of distinct senders
      recorded for it from below N - F to N - F. */
  lemma FiresExactlyAtQuorum(env: Env, p: PM, id: ReplicaId, nv: NewView)
    requires GetQuorumSize(env.metadata) >= 1
    ensures var before, after := ViewsAt(p, nv.viewNumber), ViewsAt(AddNewViewMsg(env, p, id, nv), nv.viewNumber);
            && before.Keys <= after.Keys <= before.Keys + {id}
            && (Fires(env, p, id, nv) <==>
                  |before| < env.metadata.n - env.metadata.f && |after| == env.metadata.n - env.metadata.f)
  {
    var before := ViewsAt(p, nv.viewNumber);
    if id in before {
      assert |before[id := nv]| == |before| by {
        assert before[id := nv].Keys == before.Keys;
      }
    } else {
      assert before[id := nv].Keys == before.Keys + {id};
      assert |before[id := nv]| == |before| + 1;
    }
  }

  lemma RecordedSize(env: Env, p: PM, id: ReplicaId, nv: NewView)
    ensures var at, after := ViewsAt(p, nv.viewNumber), Pacemaker.Recorded(env, p, id, nv);
            var full := nv.viewNumber in p.views && |at| >= GetQuorumSize(env.metadata);
            |after| == |at| + if id !in at && !full then 1 else 0
  {
    var at := ViewsAt(p, nv.viewNumber);
    if id in at {
      assert at[id := nv].Keys == at.Keys;
    } else {
      assert at[id := nv].Keys == at.Keys + {id};
    }
  }

  lemma AddKeeps(env: Env, p: PM, id: ReplicaId, nv: NewView)
    requires PMInv(env, p) && nv.viewNumber == p.curView
    ensures PMInv(env, AddNewViewMsg(env, p, id, nv))
  {
    RecordedSize(env, p, id, nv);
    var t := AddNewViewMsg(env, p, id, nv);
    if Fires(env, p, id, nv) {
      assert t.fired[|p.fired|] == p.curView;
    }
  }

  lemma NewViewKeeps(env: Env, p: PM, id: ReplicaId, nv: NewView)
    requires PMInv(env, p)
    ensures PMInv(env, Pacemaker.OnReceiveNewView(env, p, id, nv))
    ensures p.curView <= Pacemaker.OnReceiveNewView(env, p, id, nv).curView
  {
    var t := Pacemaker.OnReceiveNewView(env, p, id, nv);
    if ViewMoves(p, t) {
      ViewMovesKeeps(env, p, t);
    } else {
      AddKeeps(env, p, id, nv);
      ViewMovesKeeps(env, AddNewViewMsg(env, p, id, nv), t);
    }
  }

  lemma NextSyncKeeps(env: Env, p: PM, status: int -> bool)
    requires Seated(env) && PMInv(env, p)
    ensures PMInv(env, OnNextSyncView(env, p, status)) && p.curView < OnNextSyncView(env, p, status).curView
  {
    var p1 := p.(curView := NextLive(p.curView, env.id, env.metadata.n, status));
    ViewMovesKeeps(env, p, p1);
    var leader := GetCurLeader(env.metadata.n, p1.curView);
    if leader != env.id {
      var p2 := p1.(sent := p1.sent + [NewViewTo(leader, CurrentNewView(p1))]);
      ViewMovesKeeps(env, p1, p2);
      ClearKeeps(env, p2);
    } else if p1.queue != [] {
      NewViewKeeps(env, p1, env.id, CurrentNewView(p1));
      ClearKeeps(env, Pacemaker.OnReceiveNewView(env, p1, env.id, CurrentNewView(p1)));
    } else {
      ClearKeeps(env, p1);
    }
  }

  /** Every handler keeps the invariant, and none lets the current view fall. */
  lemma HandleKeeps(env: Env, p: PM, e: PMEvent)
    requires Seated(env) && PMInv(env, p)
    ensures PMInv(env, Handle(env, p, e)) && p.curView <= Handle(env, p, e).curView
  {
    match e
    case NextSyncEv(status) => NextSyncKeeps(env, p, status);
    case NewViewEv(id, nv) => NewViewKeeps(env, p, id, nv);
    case ProposalEv(viewNumber, vote, status) =>
      PassingKeepsViews(env, p.(curView := Settle(Max(p.curView, viewNumber), env.id, env.metadata.n, status)),
                        RoutedView(env, p, viewNumber, status), vote, Repeats(env, p, viewNumber, status));
      ViewMovesKeeps(env, p, Handle(env, p, e));
    case _ => ViewMovesKeeps(env, p, Handle(env, p, e));
  }

  lemma {:induction false} RunKeeps(env: Env, es: seq<PMEvent>)
    requires Seated(env)
    ensures PMInv(env, Run(env, es))
  {
    if es != [] {
      RunKeeps(env, es[..|es| - 1]);
      HandleKeeps(env, Run(env, es[..|es| - 1]), es[|es| - 1]);
    }
  }

  /** Over any run, each view number's new-view quorum is announced at most once, although the records it
      was counted from are deleted; and for the current view it has been announced exactly if N - F
      distinct replicas are recorded for it. */
  lemma NewViewQuorumOncePerView(env: Env, es: seq<PMEvent>)
    requires Seated(env)
    ensures var p := Run(env, es);
            && NoDuplicates(p.fired)
            && (p.curView in p.fired <==>
                  env.metadata.n - env.metadata.f >= 1 && |ViewsAt(p, p.curView)| >= env.metadata.n - env.metadata.f)
  {
    RunKeeps(env, es);
  }

  /** The current view never falls, from any moment of a run to any later one. */
  lemma {:induction false} ViewNeverFalls(env: Env, es: seq<PMEvent>, i: nat)
    requires Seated(env) && i <= |es|
    ensures Run(env, es[..i]).curView <= Run(env, es).curView
    decreases |es|
  {
    if i == |es| {
      assert es[..i] == es;
    } else {
      var before := es[..|es| - 1];
      assert before[..i] == es[..i];
      RunKeeps(env, before);
      ViewNeverFalls(env, before, i);
      HandleKeeps(env, Run(env, before), es[|es| - 1]);
    }
  }

  // ---------------------------------------------------------------------------
  // View skipping

  /** With a fixed connection status, the next view is the least one above the old whose leader is this
      replica or connected, and it is at most N views away. */
  lemma SkipsToLeastLiveView(env: Env, p: PM, connected: ReplicaId -> bool, status: int -> bool)
    requires Seated(env) && p.curView >= 0
    requires forall x :: status(x) <==> connected(GetCurLeader(env.metadata.n, x))
    ensures var n, v := env.metadata.n, OnNextSyncView(env, p, status).curView;
            && p.curView < v <= p.curView + n
            && (GetCurLeader(n, v) == env.id || connected(GetCurLeader(n, v)))
            && forall x :: p.curView < x < v ==> GetCurLeader(n, x) != env.id && !connected(GetCurLeader(n, x))
  {
    NextLiveIsLeast(p.curView, env.id, env.metadata.n, status);
  }

  // ---------------------------------------------------------------------------
  // Routing of votes

  /** Delivering the same vote again changes nothing once its block is stored. */
  lemma SecondDeliveryIsIdle(env: Env, c: Core, vote: Vote)
    requires vote.blockHash in c.blockCache && TallyRuns.Keyed(c)
    ensures var d := OnProposalVote(env, c, vote).core; OnProposalVote(env, d, vote).core == d
  {
    var signs := c.blockCache[vote.blockHash].selfQc.signs;
    TallyRuns.ApplyVotesKeys(signs[vote.voter := vote.cert], Parked(c, vote.blockHash));
  }

  function Copies(x: Sent, m: nat): seq<Sent> {
    if m == 0 then [] else Copies(x, m - 1) + [x]
  }

  lemma {:induction false} PassedToOther(env: Env, p: PM, viewNumber: int, vote: Vote, m: nat)
    requires Seated(env) && GetLeader(env.metadata.n, viewNumber) != env.id
    ensures PassTimes(env, p, viewNumber, vote, m) ==
              p.(sent := p.sent + Copies(VoteTo(GetLeader(env.metadata.n, viewNumber), vote), m))
    decreases m
  {
    if m > 0 {
      PassedToOther(env, p, viewNumber, vote, m - 1);
    }
  }

  /** `next` is what passing gives on `p`, and passing again gives `next` once more. */
  lemma {:induction false} PassUntilIdle(env: Env, p: PM, viewNumber: int, vote: Vote, next: PM, m: nat)
    requires Seated(env) && m >= 1
    requires PassVote(env, p, viewNumber, vote) == next && PassVote(env, next, viewNumber, vote) == next
    ensures PassTimes(env, p, viewNumber, vote, m) == next
    decreases m
  {
    if m == 1 {
      assert PassTimes(env, p, viewNumber, vote, 0) == p;
    } else {
      PassUntilIdle(env, p, viewNumber, vote, next, m - 1);
    }
  }

  lemma PassedToSelf(env: Env, p: PM, viewNumber: int, vote: Vote, m: nat)
    requires Seated(env) && GetLeader(env.metadata.n, viewNumber) == env.id
    requires vote.blockHash in p.core.blockCache && TallyRuns.Keyed(p.core) && m >= 1
    ensures PassTimes(env, p, viewNumber, vote, m) == p.(core := OnProposalVote(env, p.core, vote).core)
  {
    SecondDeliveryIsIdle(env, p.core, vote);
    PassUntilIdle(env, p, viewNumber, vote, p.(core := OnProposalVote(env, p.core, vote).core), m);
  }

  lemma {:induction false} ApplyVotesAppend(signs: map<ReplicaId, PartCert>, votes: seq<Vote>, v: Vote)
    ensures var r := ApplyVotes(signs, votes);
            ApplyVotes(signs, votes + [v]) == if v.voter in r then r else r[v.voter := v.cert]
    decreases |votes|
  {
    if votes == [] {
      assert (votes + [v])[1..] == [];
    } else {
      var next := if votes[0].voter in signs then signs else signs[votes[0].voter := votes[0].cert];
      assert (votes + [v])[1..] == votes[1..] + [v];
      ApplyVotesAppend(next, votes[1..], v);
    }
  }

  /** Two cores that differ only in what they have parked for `h`, and will count it to the same effect. */
  ghost predicate CountsAlike(c: Core, d: Core, h: Hash) {
    && d == c.(voteSet := d.voteSet) && h in c.voteSet && d.voteSet == c.voteSet[h := Parked(d, h)]
    && forall signs :: ApplyVotes(signs, Parked(d, h)) == ApplyVotes(signs, Parked(c, h))
  }

  /** For an unknown block the copies are all parked, which counts like parking one. */
  lemma {:induction false} ParkedForSelf(env: Env, p: PM, viewNumber: int, vote: Vote, m: nat)
    requires Seated(env) && GetLeader(env.metadata.n, viewNumber) == env.id
    requires vote.blockHash !in p.core.blockCache && m >= 1
    ensures var t := PassTimes(env, p, viewNumber, vote, m);
            && t == p.(core := t.core) && CountsAlike(AddVoteMsg(p.core, vote), t.core, vote.blockHash)
            && |Parked(t.core, vote.blockHash)| == |Parked(p.core, vote.blockHash)| + m
            && Parked(t.core, vote.blockHash)[|Parked(p.core, vote.blockHash)| + m - 1] == vote
    decreases m
  {
    if m == 1 {
      assert PassTimes(env, p, viewNumber, vote, 0) == p;
    } else {
      ParkedForSelf(env, p, viewNumber, vote, m - 1);
      var once, c := AddVoteMsg(p.core, vote), PassTimes(env, p, viewNumber, vote, m - 1).core;
      ParkOnceMore(once, c, vote);
    }
  }

  lemma ParkOnceMore(once: Core, c: Core, vote: Vote)
    requires CountsAlike(once, c, vote.blockHash)
    requires Parked(c, vote.blockHash) != [] && Parked(c, vote.blockHash)[|Parked(c, vote.blockHash)| - 1] == vote
    ensures CountsAlike(once, AddVoteMsg(c, vote), vote.blockHash)
  {
    var parked := Parked(c, vote.blockHash);
    forall signs: map<ReplicaId, PartCert>
      ensures ApplyVotes(signs, parked + [vote]) == ApplyVotes(signs, parked)
    {
      ApplyVotesAppend(signs, parked, vote);
      TallyRuns.ApplyVotesKeys(signs, parked);
    }
  }

  lemma PassingKeepsViews(env: Env, p: PM, viewNumber: int, vote: Vote, m: nat)
    requires Seated(env)
    ensures var t := PassTimes(env, p, viewNumber, vote, m);
            t.curView == p.curView && t.views == p.views && t.fired == p.fired
    decreases m
  {
    if m > 0 {
      PassingKeepsViews(env, p, viewNumber, vote, m - 1);
    }
  }

  /** The pacemaker's OnReceiveProposal passes a vote on at most N times. If it had to skip a leader, all of
      these go to one leader that is this replica or was reported connected. If that leader is this
      replica, the core ends up as after one delivery, or, if the block is not known yet, with parked votes
      that count like one. */
  lemma VoteRouting(env: Env, p: PM, viewNumber: int, vote: Vote, status: int -> bool)
    requires Seated(env) && p.curView >= 0 && TallyRuns.Keyed(p.core)
    ensures var t := Pacemaker.OnReceiveProposal(env, p, viewNumber, vote, status);
            var leader := GetLeader(env.metadata.n, RoutedView(env, p, viewNumber, status));
            && 1 <= Repeats(env, p, viewNumber, status) <= env.metadata.n
            && (leader != env.id ==>
                  t.core == p.core &&
                  t.sent == p.sent + Copies(VoteTo(leader, vote), Repeats(env, p, viewNumber, status)))
            && (leader == env.id ==>
                  var once := OnProposalVote(env, p.core, vote).core;
                  t.sent == p.sent &&
                  if vote.blockHash in p.core.blockCache then t.core == once else CountsAlike(once, t.core, vote.blockHash))
            && (t.curView > Max(p.curView, viewNumber) ==> leader == env.id || status(t.curView))
  {
    var v, m := RoutedView(env, p, viewNumber, status), Repeats(env, p, viewNumber, status);
    var p1 := p.(curView := Settle(Max(p.curView, viewNumber), env.id, env.metadata.n, status));
    PassingKeepsViews(env, p1, v, vote, m);
    SettleIsLeast(Max(p.curView, viewNumber), env.id, env.metadata.n, status);
    if GetLeader(env.metadata.n, v) != env.id {
      PassedToOther(env, p1, v, vote, m);
    } else if vote.blockHash in p.core.blockCache {
      PassedToSelf(env, p1, v, vote, m);
    } else {
      ParkedForSelf(env, p1, v, vote, m);
    }
  }
}
