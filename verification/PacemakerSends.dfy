/** What the pacemaker sends, starts and hands on: to whom, with what, and over whole runs. */
module PacemakerSends {
  import opened Types
  import opened Replica
  import opened Pacemaker
  import opened PacemakerRuns
  import PacedRuns
  import S = System

  // ---------------------------------------------------------------------------
  // View changes

  /** OnNextSyncView ends in some view v. If that is another replica's, this one was reported connected, and exactly
      one message goes out: to v % N, with v and the highest certificate. If it is this replica's own, none does. */
  lemma NextSyncSends(env: Env, p: PM, status: int -> bool)
    requires Seated(env) && p.curView >= 0
    ensures var t, n := OnNextSyncView(env, p, status), env.metadata.n;
            && t.queue == p.queue && t.curView > p.curView
            && (t.curView % n != env.id ==>
                  && status(t.curView) && t.core == p.core && t.spawned == p.spawned && t.fired == p.fired
                  && t.sent == p.sent + [NewViewTo(t.curView % n, NewView(t.curView, p.core.genericQC))])
            && (t.curView % n == env.id ==> t.sent == p.sent)
  {
    NextLiveIsLeast(p.curView, env.id, env.metadata.n, status);
  }

  /** Exactly the records of views before the new one are gone, and those of later ones are as they were. */
  lemma NextSyncClears(env: Env, p: PM, status: int -> bool, v: int)
    requires Seated(env) && p.curView >= 0 && v != OnNextSyncView(env, p, status).curView
    ensures var t := OnNextSyncView(env, p, status);
            && (v in t.views <==> v in p.views && v > t.curView)
            && (v in t.views ==> t.views[v] == p.views[v])
  {
  }

  /** In its own view a replica with a command counts itself towards the quorum, and starts a beat exactly if that
      completes it; without one it starts nothing. */
  lemma NextSyncStarts(env: Env, p: PM, status: int -> bool)
    requires Seated(env) && p.curView >= 0 && p.core.genericQC.blockHash in p.core.blockCache
    requires OnNextSyncView(env, p, status).curView % env.metadata.n == env.id
    ensures var t, q := OnNextSyncView(env, p, status), env.metadata.n - env.metadata.f;
            var at := ViewsAt(p, t.curView);
            && (p.queue == [] ==> t.core == p.core && t.spawned == p.spawned && ViewsAt(t, t.curView) == at)
            && (p.queue != [] && |at| < q ==> env.id in ViewsAt(t, t.curView))
            && (p.queue != [] ==>
                  t.spawned == p.spawned + if env.id !in at && |at| + 1 == q then [Beat] else [])
  {
    NextLiveIsLeast(p.curView, env.id, env.metadata.n, status);
  }

  /** A new-view message of an old view or for an unknown block is dropped. A higher certificate starts a beat or,
      without a command, a view change. A higher view is entered and announced to all with this replica's own
      certificate. In the current view a beat is started exactly if a command waits and the sender is the one that
      makes the recorded ones N - F. The core considers the certificate if it is higher or the quorum is complete. */
  lemma NewViewStarts(env: Env, p: PM, id: ReplicaId, nv: NewView)
    ensures var t, at := OnReceiveNewView(env, p, id, nv), ViewsAt(p, nv.viewNumber);
            var known := nv.genericQc.blockHash in p.core.blockCache;
            var higher := nv.genericQc.viewNumber > p.core.genericQC.viewNumber;
            && t.queue == p.queue
            && (nv.viewNumber < p.curView || !known ==> t == p)
            && (nv.viewNumber >= p.curView && known && higher ==>
                  && t.curView == nv.viewNumber && t.sent == p.sent && t.views == p.views && t.fired == p.fired
                  && t.core == UpdateHighestQC(env, p.core, p.core.blockCache[nv.genericQc.blockHash], nv.genericQc)
                  && t.spawned == p.spawned + [if p.queue == [] then NextSync else Beat])
            && (nv.viewNumber > p.curView && known && !higher ==>
                  t == p.(curView := nv.viewNumber,
                          sent := p.sent + [NewViewToAll(NewView(nv.viewNumber, p.core.genericQC))]))
            && (nv.viewNumber == p.curView && known && !higher ==>
                  var full := id !in at && |at| + 1 == env.metadata.n - env.metadata.f;
                  && t.curView == p.curView && t.sent == p.sent
                  && t.core == (if full
                                then UpdateHighestQC(env, p.core, p.core.blockCache[nv.genericQc.blockHash], nv.genericQc)
                                else p.core)
                  && t.fired == p.fired + (if full then [p.curView] else [])
                  && t.spawned == p.spawned + if full && p.queue != [] then [Beat] else [])
  {
  }

  /** The message that completes the quorum of a leader's own view makes it propose: a beat is started, and that
      beat makes the core propose the first waiting command in this view. */
  lemma QuorumProposes(env: Env, p: PM, id: ReplicaId, nv: NewView, timestamp: int)
    requires Seated(env) && p.curView == nv.viewNumber >= 0 && p.curView % env.metadata.n == env.id
    requires nv.genericQc.blockHash in p.core.blockCache && nv.genericQc.viewNumber <= p.core.genericQC.viewNumber
    requires id !in ViewsAt(p, p.curView) && |ViewsAt(p, p.curView)| + 1 == env.metadata.n - env.metadata.f
    requires p.queue != []
    ensures var t := Handle(env, p, NewViewEv(id, nv));
            && t.spawned == p.spawned + [Beat] && t.queue == p.queue
            && PacedRuns.Calls(env, t, BeatEv(timestamp)) == [S.Propose(env.id, p.curView, p.queue[0], timestamp)]
            && Handle(env, t, BeatEv(timestamp)).queue == p.queue[1..]
  {
    NewViewStarts(env, p, id, nv);
  }

  /** A finished certificate takes curView to its view. The next leader enters its own view and starts a beat, which
      will propose its first command there, or a view change if it has none; all others start a view change. */
  lemma QcFinishStarts(env: Env, p: PM, qc: QuorumCert, timestamp: int)
    requires Seated(env) && p.curView >= 0
    ensures var t, v := Handle(env, p, QcFinishEv(qc)), if qc.viewNumber > p.curView then qc.viewNumber else p.curView;
            && t == p.(curView := t.curView, spawned := t.spawned)
            && ((v + 1) % env.metadata.n != env.id ==> t.curView == v && t.spawned == p.spawned + [NextSync])
            && ((v + 1) % env.metadata.n == env.id ==>
                  && t.curView == v + 1 && t.spawned == p.spawned + [if p.queue == [] then NextSync else Beat]
                  && (p.queue != [] ==>
                        PacedRuns.Calls(env, t, BeatEv(timestamp)) == [S.Propose(env.id, v + 1, p.queue[0], timestamp)]))
  {
  }

  /** A beat without a command does nothing. With one it forwards the first to the leader v % N of the current view v
      and proposes nothing, or, if that is this replica, proposes it and sends nothing. */
  lemma BeatHandsOn(env: Env, p: PM, timestamp: int)
    requires Seated(env) && p.curView >= 0
    ensures var t, calls := Handle(env, p, BeatEv(timestamp)), PacedRuns.Calls(env, p, BeatEv(timestamp));
            && (p.queue == [] ==> t == p && calls == [])
            && (p.queue != [] && p.curView % env.metadata.n != env.id ==>
                  && calls == []
                  && t == p.(queue := p.queue[1..],
                             sent := p.sent + [ForwardTo(p.curView % env.metadata.n, p.queue[0])]))
            && (p.queue != [] && p.curView % env.metadata.n == env.id ==>
                  && calls == [S.Propose(env.id, p.curView, p.queue[0], timestamp)]
                  && t == p.(queue := p.queue[1..], core := t.core))
  {
  }

  /** Exactly one proposal goes out, to all and with the block as it is. If the next leader is another replica that is
      not connected, its turn is skipped, and the proposal carries the view after. */
  lemma ProposeSends(env: Env, p: PM, viewNumber: int, block: Block, status: int -> bool)
    requires Seated(env) && p.curView >= 0
    ensures var t, dead := OnProposeEvent(env, p, viewNumber, block, status),
                           (p.curView + 1) % env.metadata.n != env.id && !status(p.curView);
            && t.curView == p.curView + (if dead then 1 else 0)
            && t == p.(curView := t.curView,
                       sent := p.sent + [ProposalToAll(if dead then p.curView + 1 else viewNumber, block)])
  {
  }

  // ---------------------------------------------------------------------------
  // Which message of a sender is kept

  datatype Heard = Heard(id: ReplicaId, nv: NewView)

  function RecordAll(env: Env, p: PM, ms: seq<Heard>): PM {
    if ms == [] then p
    else AddNewViewMsg(env, RecordAll(env, p, ms[..|ms| - 1]), ms[|ms| - 1].id, ms[|ms| - 1].nv)
  }

  predicate IsLowest(ms: seq<Heard>, id: ReplicaId, nv: NewView) {
    && (exists i :: 0 <= i < |ms| && ms[i] == Heard(id, nv))
    && (forall i :: 0 <= i < |ms| && ms[i].id == id ==> nv.genericQc.viewNumber <= ms[i].nv.genericQc.viewNumber)
  }

  predicate Gathers(ms: seq<Heard>, at: map<ReplicaId, NewView>) {
    && (forall i :: 0 <= i < |ms| ==> ms[i].id in at)
    && (forall id :: id in at ==> IsLowest(ms, id, at[id]))
  }

  lemma GathersOneMore(ms: seq<Heard>, at: map<ReplicaId, NewView>, m: Heard)
    requires Gathers(ms, at)
    ensures var keeps := m.id in at && at[m.id].genericQc.viewNumber <= m.nv.genericQc.viewNumber;
            Gathers(ms + [m], if keeps then at else at[m.id := m.nv])
  {
    var keeps := m.id in at && at[m.id].genericQc.viewNumber <= m.nv.genericQc.viewNumber;
    var now := if keeps then at else at[m.id := m.nv];
    assert (ms + [m])[|ms|] == m;
    forall id | id in now
      ensures IsLowest(ms + [m], id, now[id])
    {
      if id in at {
        var i :| 0 <= i < |ms| && ms[i] == Heard(id, at[id]);
        assert (ms + [m])[i] == ms[i];
      } else {
        assert forall i :: 0 <= i < |ms| ==> ms[i].id != id;
      }
    }
  }

  /** While a view's records are below the quorum every sender heard of has one, and it is the one of all its
      messages whose certificate has the lowest view, not the highest. */
  lemma {:induction false} LowestIsKept(env: Env, p: PM, v: int, ms: seq<Heard>)
    requires v !in p.views && (forall i :: 0 <= i < |ms| ==> ms[i].nv.viewNumber == v)
    requires |ViewsAt(RecordAll(env, p, ms), v)| < env.metadata.n - env.metadata.f
    ensures Gathers(ms, ViewsAt(RecordAll(env, p, ms), v))
    decreases |ms|
  {
    if ms != [] {
      var before, m := ms[..|ms| - 1], ms[|ms| - 1];
      RecordedSize(env, RecordAll(env, p, before), m.id, m.nv);
      LowestIsKept(env, p, v, before);
      GathersOneMore(before, ViewsAt(RecordAll(env, p, before), v), m);
      assert before + [m] == ms;
    }
  }

  // ---------------------------------------------------------------------------
  // Whole runs

  /** The message is for another replica, and a new-view message for the leader of the view it is about. */
  predicate Addressed(env: Env, m: Sent)
    requires Seated(env)
  {
    match m
    case VoteTo(to, _) => to != env.id
    case NewViewTo(to, nv) => to == nv.viewNumber % env.metadata.n != env.id
    case ForwardTo(to, _) => 0 <= to < env.metadata.n && to != env.id
    case _ => true
  }

  predicate AllAddressed(env: Env, ms: seq<Sent>)
    requires Seated(env)
  {
    forall i :: 0 <= i < |ms| ==> Addressed(env, ms[i])
  }

  /** Passing a vote on sends votes to one other replica, or nothing. */
  lemma PassingSends(env: Env, p: PM, viewNumber: int, vote: Vote, m: nat)
    requires Seated(env)
    ensures var t, leader := PassTimes(env, p, viewNumber, vote, m), GetLeader(env.metadata.n, viewNumber);
            && t.queue == p.queue && t.spawned == p.spawned
            && t.sent == p.sent + if leader != env.id then Copies(VoteTo(leader, vote), m) else []
    decreases m
  {
    if m > 0 {
      PassingSends(env, p, viewNumber, vote, m - 1);
    }
  }

  // ---------------------------------------------------------------------------
  // Commands

  /** The commands forwarded by these messages. */
  function Forwarded(ms: seq<Sent>): seq<Bytes> {
    if ms == [] then []
    else Forwarded(ms[..|ms| - 1]) + if ms[|ms| - 1].ForwardTo? then [ms[|ms| - 1].cmds] else []
  }

  /** The commands proposed by these calls. */
  function Proposed(calls: seq<S.Action>): seq<Bytes> {
    if calls == [] then []
    else Proposed(calls[..|calls| - 1]) + if calls[|calls| - 1].Propose? then [calls[|calls| - 1].cmds] else []
  }

  function Submitted(es: seq<PMEvent>): seq<Bytes> {
    if es == [] then []
    else Submitted(es[..|es| - 1]) + if es[|es| - 1].SubmitEv? then [es[|es| - 1].cmds] else []
  }

  /** What one event adds to the messages. */
  function NewlySent(env: Env, p: PM, e: PMEvent): seq<Sent>
    requires Seated(env)
  {
    var t := Handle(env, p, e);
    if |p.sent| <= |t.sent| then t.sent[|p.sent|..] else []
  }

  /** The commands that have left the queue, proposed or forwarded, in this order. */
  function HandedOn(env: Env, es: seq<PMEvent>): seq<Bytes>
    requires Seated(env)
  {
    if es == [] then []
    else
      var p, e := Run(env, es[..|es| - 1]), es[|es| - 1];
      HandedOn(env, es[..|es| - 1]) + Proposed(PacedRuns.Calls(env, p, e)) + Forwarded(NewlySent(env, p, e))
  }

  lemma {:induction false} RepeatedVotes(r: ReplicaId, vote: Vote, m: nat)
    ensures Proposed(PacedRuns.Repeat(S.CastVote(r, vote), m)) == []
  {
    if m > 0 {
      RepeatedVotes(r, vote, m - 1);
      var before := PacedRuns.Repeat(S.CastVote(r, vote), m - 1);
      assert (before + [S.CastVote(r, vote)])[..|before|] == before;
    }
  }

  lemma {:induction false} CopiesOfVote(env: Env, x: Sent, m: nat)
    requires Seated(env) && x.VoteTo? && Addressed(env, x)
    ensures Forwarded(Copies(x, m)) == [] && AllAddressed(env, Copies(x, m))
  {
    if m > 0 {
      CopiesOfVote(env, x, m - 1);
      var before := Copies(x, m - 1);
      assert (before + [x])[..|before|] == before;
    }
  }

  lemma ProposalHandsOnNothing(env: Env, p: PM, viewNumber: int, vote: Vote, status: int -> bool)
    requires Seated(env)
    ensures var e := ProposalEv(viewNumber, vote, status);
            && Handle(env, p, e).queue == p.queue && Proposed(PacedRuns.Calls(env, p, e)) == []
            && p.sent <= Handle(env, p, e).sent && Forwarded(NewlySent(env, p, e)) == []
            && AllAddressed(env, NewlySent(env, p, e))
  {
    var v, m := RoutedView(env, p, viewNumber, status), Repeats(env, p, viewNumber, status);
    var p1 := p.(curView := Settle(Max(p.curView, viewNumber), env.id, env.metadata.n, status));
    var leader := GetLeader(env.metadata.n, v);
    PassingSends(env, p1, v, vote, m);
    RepeatedVotes(env.id, vote, m);
    if leader != env.id {
      CopiesOfVote(env, VoteTo(leader, vote), m);
      assert NewlySent(env, p, ProposalEv(viewNumber, vote, status)) == Copies(VoteTo(leader, vote), m);
    }
  }

  lemma NewViewHandsOnNothing(env: Env, p: PM, id: ReplicaId, nv: NewView)
    requires Seated(env)
    ensures var e := NewViewEv(id, nv);
            && Handle(env, p, e).queue == p.queue && Proposed(PacedRuns.Calls(env, p, e)) == []
            && p.sent <= Handle(env, p, e).sent && Forwarded(NewlySent(env, p, e)) == []
            && AllAddressed(env, NewlySent(env, p, e))
  {
    NewViewStarts(env, p, id, nv);
  }

  lemma NextSyncHandsOnNothing(env: Env, p: PM, status: int -> bool)
    requires Seated(env) && p.curView >= 0
    ensures var e := NextSyncEv(status);
            && Handle(env, p, e).queue == p.queue && Proposed(PacedRuns.Calls(env, p, e)) == []
            && p.sent <= Handle(env, p, e).sent && Forwarded(NewlySent(env, p, e)) == []
            && AllAddressed(env, NewlySent(env, p, e))
  {
    NextSyncSends(env, p, status);
  }

  /** Events other than a submission and a beat leave the queue alone and hand nothing on. */
  lemma OthersKeepQueue(env: Env, p: PM, e: PMEvent)
    requires Seated(env) && p.curView >= 0 && !e.SubmitEv? && !e.BeatEv?
    ensures Handle(env, p, e).queue == p.queue && Proposed(PacedRuns.Calls(env, p, e)) == []
    ensures p.sent <= Handle(env, p, e).sent && Forwarded(NewlySent(env, p, e)) == []
    ensures AllAddressed(env, NewlySent(env, p, e))
  {
    match e
    case NextSyncEv(status) => NextSyncHandsOnNothing(env, p, status);
    case NewViewEv(id, nv) => NewViewHandsOnNothing(env, p, id, nv);
    case ProposalEv(viewNumber, vote, status) => ProposalHandsOnNothing(env, p, viewNumber, vote, status);
    case _ =>
  }

  lemma BeatTakesOne(env: Env, p: PM, timestamp: int)
    requires Seated(env) && p.curView >= 0
    ensures var e := BeatEv(timestamp);
            && p.sent <= Handle(env, p, e).sent && AllAddressed(env, NewlySent(env, p, e))
            && p.queue == Proposed(PacedRuns.Calls(env, p, e)) + Forwarded(NewlySent(env, p, e)) + Handle(env, p, e).queue
  {
    BeatHandsOn(env, p, timestamp);
  }

  lemma StepConserves(env: Env, p: PM, e: PMEvent)
    requires Seated(env) && p.curView >= 0
    ensures p.sent <= Handle(env, p, e).sent && AllAddressed(env, NewlySent(env, p, e))
    ensures p.queue + (if e.SubmitEv? then [e.cmds] else []) ==
            Proposed(PacedRuns.Calls(env, p, e)) + Forwarded(NewlySent(env, p, e)) + Handle(env, p, e).queue
  {
    if e.BeatEv? {
      BeatTakesOne(env, p, e.timestamp);
    } else if !e.SubmitEv? {
      OthersKeepQueue(env, p, e);
    }
  }

  lemma Regroup(gone: seq<Bytes>, queue: seq<Bytes>, x: seq<Bytes>, a: seq<Bytes>, b: seq<Bytes>, rest: seq<Bytes>)
    requires queue + x == a + b + rest
    ensures gone + queue + x == gone + a + b + rest
  {
    assert gone + queue + x == gone + (queue + x);
    assert gone + a + b + rest == gone + (a + b + rest);
  }

  /** Over every run no command is lost, doubled or reordered: what was submitted is what was proposed or forwarded, in
      this order, followed by what still waits. */
  lemma {:induction false} CommandsAreConserved(env: Env, es: seq<PMEvent>)
    requires Seated(env)
    ensures Submitted(es) == HandedOn(env, es) + Run(env, es).queue
  {
    if es != [] {
      var before, e := es[..|es| - 1], es[|es| - 1];
      var p := Run(env, before);
      CommandsAreConserved(env, before);
      RunKeeps(env, before);
      StepConserves(env, p, e);
      Regroup(HandedOn(env, before), p.queue, if e.SubmitEv? then [e.cmds] else [], Proposed(PacedRuns.Calls(env, p, e)),
              Forwarded(NewlySent(env, p, e)), Handle(env, p, e).queue);
    }
  }

  /** Over every run all messages are addressed as they should be. */
  lemma {:induction false} SentAreAddressed(env: Env, es: seq<PMEvent>)
    requires Seated(env)
    ensures AllAddressed(env, Run(env, es).sent)
  {
    if es != [] {
      var before, e := es[..|es| - 1], es[|es| - 1];
      SentAreAddressed(env, before);
      RunKeeps(env, before);
      StepConserves(env, Run(env, before), e);
    }
  }
}
