/** Runs in which the pacemakers pass the lead on with every block: for any sequence of commands, each proposed by
    the next replica in turn that is up, all honest replicas decide these commands in order, all but the last three. */
module TurnRuns {
  import opened Types
  import opened Quorum
  import opened Entity
  import opened Replica
  import opened World
  import opened System
  import opened OrderlyRuns
  import opened DecideRuns
  import opened Progress
  import opened Fork
  import opened LoopRuns
  import opened PacedRuns
  import opened PacedMoves
  import opened Rotation
  import Pacemaker
  import PM = PacemakerRuns

  // ---------------------------------------------------------------------------
  // The first leader is up

  predicate FreshSeat(u: Setup, cmd: Bytes, r: ReplicaId, pm: Pacemaker.PM)
    requires u.metadata.n > 0
  {
    && pm.core == Initial(EnvOf(u, r)) && pm.curView <= ViewOf(u, 0)
    && pm.queue == if r == SeatOf(u, 0) then [cmd] else []
  }

  lemma FreshWaits(u: Setup, cmd: Bytes, r: ReplicaId, pm: Pacemaker.PM)
    requires Spread(u) && r in Honest(u) && FreshSeat(u, cmd, r, pm)
    ensures Waits(u, [Genesis(u.digest)], [Genesis(u.digest)], r, pm)
  {
    var chain := [Genesis(u.digest)];
    assert Mine(u, chain, chain, r) == chain;
    StartSettled(u, r);
  }

  lemma FreshGrounds(u: Setup, cmds: seq<Bytes>)
    requires Spread(u) && NoRepeat(u.digest, cmds) && NoEmptyHash(u.digest, cmds)
    ensures Grounds(u, cmds, [Genesis(u.digest)], [Genesis(u.digest)])
  {
    ViewIsUp(u, 0);
    StartSettled(u, SeatOf(u, 0));
  }

  /** Nothing has happened but view changes, and it is the first leader's turn. */
  lemma FreshIsReady(u: Setup, cmds: seq<Bytes>, p: Paced)
    requires Grounds(u, cmds, [Genesis(u.digest)], [Genesis(u.digest)]) && p.pms.Keys == Honest(u) && p.tree == Init(u).tree
    requires |cmds| > 0 && SeatOf(u, 0) in p.pms
    requires forall r {:trigger FreshSeat(u, cmds[0], r, p.pms[r])} :: r in p.pms ==> FreshSeat(u, cmds[0], r, p.pms[r])
    requires p.pms[SeatOf(u, 0)].curView == ViewOf(u, 0)
    ensures Ready(u, cmds, [Genesis(u.digest)], [Genesis(u.digest)], p)
  {
    assert FreshSeat(u, cmds[0], SeatOf(u, 0), p.pms[SeatOf(u, 0)]);
    StartSettled(u, SeatOf(u, 0));
    forall r | r in p.pms
      ensures Waits(u, [Genesis(u.digest)], [Genesis(u.digest)], r, p.pms[r])
    {
      assert FreshSeat(u, cmds[0], r, p.pms[r]);
      FreshWaits(u, cmds[0], r, p.pms[r]);
    }
  }

  lemma StartHanded(u: Setup, rule: VoteRule, cmd: Bytes, r: ReplicaId)
    requires Spread(u) && r in Start(u).pms
    ensures Playing(u, rule, [] + [Drive(r, PM.SubmitEv(cmd))], Handed(Start(u), r, cmd), [])
    ensures NoBeat([] + [Drive(r, PM.SubmitEv(cmd))], r)
  {
    SpreadIsSeated(u);
    StartPlaying(u, rule);
    Submits(u, rule, [], Start(u), [], r, cmd);
  }

  lemma HandedIsFresh(u: Setup, cmd: Bytes)
    requires u.metadata.n > 0 && Up(u, 0) && 0 in Start(u).pms
    ensures var p := Handed(Start(u), 0, cmd);
            forall r {:trigger FreshSeat(u, cmd, r, p.pms[r])} :: r in p.pms ==> FreshSeat(u, cmd, r, p.pms[r])
  {
  }

  lemma FirstLeads(u: Setup)
    requires u.metadata.n > 0 && Up(u, 0)
    ensures ViewOf(u, 0) == SeatOf(u, 0) == 0 && 0 in Honest(u) && 0 in Start(u).pms
  {
    DivUnique(0, u.metadata.n, 0, 0);
  }

  lemma HandedIsReady(u: Setup, cmds: seq<Bytes>)
    requires Grounds(u, cmds, [Genesis(u.digest)], [Genesis(u.digest)]) && |cmds| > 0 && Up(u, 0) && 0 in Start(u).pms
    ensures Ready(u, cmds, [Genesis(u.digest)], [Genesis(u.digest)], Handed(Start(u), 0, cmds[0]))
  {
    FirstLeads(u);
    HandedIsFresh(u, cmds[0]);
    FreshIsReady(u, cmds, Handed(Start(u), 0, cmds[0]));
  }

  /** The chain is genesis, and whose turn it is has a beat to come. */
  lemma FirstRolls(u: Setup, rule: VoteRule, cmds: seq<Bytes>, moves: seq<Move>, p: Paced, run: seq<Action>, x: ReplicaId)
    requires Grounds(u, cmds, [Genesis(u.digest)], [Genesis(u.digest)]) && x == SeatOf(u, 0) && x in p.pms
    requires Ready(u, cmds, [Genesis(u.digest)], [Genesis(u.digest)], p) && Playing(u, rule, moves, p, run)
    requires Turns(run) == [] && BeatDue(moves, x, p.pms[x])
    ensures Rolling(u, rule, cmds, moves, p, run, [Genesis(u.digest)], [Genesis(u.digest)])
  {
  }

  lemma StartsAtOnce(u: Setup, rule: VoteRule, cmds: seq<Bytes>)
      returns (moves: seq<Move>, p: Paced, run: seq<Action>)
    requires Grounds(u, cmds, [Genesis(u.digest)], [Genesis(u.digest)]) && |cmds| > 0 && Up(u, 0)
    ensures Rolling(u, rule, cmds, moves, p, run, [Genesis(u.digest)], [Genesis(u.digest)])
  {
    FirstLeads(u);
    StartHanded(u, rule, cmds[0], 0);
    HandedIsReady(u, cmds);
    moves, p, run := [] + [Drive(0, PM.SubmitEv(cmds[0]))], Handed(Start(u), 0, cmds[0]), [];
    FirstRolls(u, rule, cmds, moves, p, run, 0);
  }

  // ---------------------------------------------------------------------------
  // The first leader is down: the others change view

  function GenesisQc(u: Setup): QuorumCert {
    Genesis(u.digest).selfQc
  }

  /** The message with which a fresh replica enters view 1. */
  function FirstView(u: Setup): NewView {
    NewView(1, GenesisQc(u))
  }

  function AllOf(u: Setup, got: set<ReplicaId>): map<ReplicaId, NewView> {
    map r | r in got :: FirstView(u)
  }

  /** A replica in view 0, or one that has entered view 1 and told its leader, or that leader with the messages of
      `got`. */
  predicate SyncSeat(u: Setup, cmd: Bytes, done: set<ReplicaId>, got: set<ReplicaId>, r: ReplicaId, pm: Pacemaker.PM) {
    && pm.core == Initial(EnvOf(u, r)) && pm.queue == (if r == 1 then [cmd] else [])
    && if r !in done then pm.curView == 0 && pm.views == map[]
       else if r == 1 then pm.curView == 1 && 1 in pm.views && pm.views[1] == AllOf(u, got)
       else pm.curView == 1 && Pacemaker.NewViewTo(1, FirstView(u)) in pm.sent
  }

  predicate Syncing(u: Setup, cmd: Bytes, done: set<ReplicaId>, got: set<ReplicaId>, p: Paced) {
    && p.pms.Keys == Honest(u) && p.tree == Init(u).tree
    && (forall r {:trigger SyncSeat(u, cmd, done, got, r, p.pms[r])} :: r in p.pms ==>
          SyncSeat(u, cmd, done, got, r, p.pms[r]))
  }

  /** What OnNextSyncView makes of a fresh replica. */
  function Synced(u: Setup, r: ReplicaId, pm: Pacemaker.PM): Pacemaker.PM {
    if r == 1 then pm.(curView := 1, views := map[1 := map[1 := FirstView(u)]])
    else pm.(curView := 1, sent := pm.sent + [Pacemaker.NewViewTo(1, FirstView(u))])
  }

  lemma FirstSeat(u: Setup)
    requires Spread(u) && !Up(u, 0)
    ensures ViewOf(u, 0) == SeatOf(u, 0) == 1 && 1 in Honest(u) && u.metadata.n >= 4 && CurUp(u)(1)
  {
    SomeoneIsDown(u, 0);
    DivUnique(1, u.metadata.n, 0, 1);
    assert OneIsUp(u, 0);
  }

  lemma NextIsOne(u: Setup, r: ReplicaId)
    requires Spread(u) && !Up(u, 0) && r in Honest(u)
    ensures Turned(u, r)
  {
    FirstSeat(u);
  }

  predicate Turned(u: Setup, r: ReplicaId) {
    && Pacemaker.Seated(EnvOf(u, r)) && u.metadata.n >= 2
    && Pacemaker.NextLive(0, r, u.metadata.n, CurUp(u)) == 1
  }

  lemma LeaderSyncs(u: Setup, cmd: Bytes, pm: Pacemaker.PM)
    requires Turned(u, 1) && SyncSeat(u, cmd, {}, {}, 1, pm) && GetQuorumSize(u.metadata) >= 2
    ensures Calls(EnvOf(u, 1), pm, PM.NextSyncEv(CurUp(u))) == []
    ensures PM.Handle(EnvOf(u, 1), pm, PM.NextSyncEv(CurUp(u))) == Synced(u, 1, pm)
  {
  }

  lemma SyncEffect(u: Setup, cmd: Bytes, r: ReplicaId, pm: Pacemaker.PM)
    requires Turned(u, r) && SyncSeat(u, cmd, {}, {}, r, pm) && GetQuorumSize(u.metadata) >= 2
    ensures Calls(EnvOf(u, r), pm, PM.NextSyncEv(CurUp(u))) == []
    ensures PM.Handle(EnvOf(u, r), pm, PM.NextSyncEv(CurUp(u))) == Synced(u, r, pm)
  {
    if r == 1 {
      LeaderSyncs(u, cmd, pm);
    }
  }

  lemma SyncMoves(u: Setup, cmd: Bytes, done: set<ReplicaId>, p: Paced, r: ReplicaId)
    requires Syncing(u, cmd, done, {1}, p) && r in p.pms && r !in done
    ensures Syncing(u, cmd, done + {r}, {1}, Paced(p.tree, p.pms[r := Synced(u, r, p.pms[r])]))
  {
    var q := Paced(p.tree, p.pms[r := Synced(u, r, p.pms[r])]);
    assert AllOf(u, {1}) == map[1 := FirstView(u)];
    forall x | x in q.pms
      ensures SyncSeat(u, cmd, done + {r}, {1}, x, q.pms[x])
    {
      assert SyncSeat(u, cmd, done, {1}, x, p.pms[x]);
    }
  }

  /** One replica's timer runs out. */
  lemma SyncOne(u: Setup, rule: VoteRule, cmd: Bytes, done: set<ReplicaId>, moves: seq<Move>, p: Paced, r: ReplicaId)
    requires Spread(u) && !Up(u, 0) && Playing(u, rule, moves, p, []) && Syncing(u, cmd, done, {1}, p)
    requires r in p.pms && r !in done
    ensures Playing(u, rule, moves + [Drive(r, PM.NextSyncEv(CurUp(u)))],
                    Paced(p.tree, p.pms[r := Synced(u, r, p.pms[r])]), [])
  {
    assert SyncSeat(u, cmd, done, {1}, r, p.pms[r]);
    SpreadIsSeated(u);
    NextIsOne(u, r);
    SyncEffect(u, cmd, r, p.pms[r]);
    QuietMove(u, rule, moves, p, [], r, PM.NextSyncEv(CurUp(u)));
  }

  lemma {:induction false} AllSync(u: Setup, rule: VoteRule, cmd: Bytes, done: set<ReplicaId>, moves: seq<Move>, p: Paced)
      returns (longer: seq<Move>, q: Paced)
    requires Spread(u) && !Up(u, 0) && Playing(u, rule, moves, p, []) && Syncing(u, cmd, done, {1}, p) && done <= Honest(u)
    ensures Playing(u, rule, longer, q, []) && Syncing(u, cmd, Honest(u), {1}, q)
    decreases Honest(u) - done
  {
    if done == Honest(u) {
      longer, q := moves, p;
    } else {
      var r := NotYet(Honest(u), done);
      SyncOne(u, rule, cmd, done, moves, p, r);
      SyncMoves(u, cmd, done, p, r);
      FewerLeft(Honest(u), done, r);
      longer, q := AllSync(u, rule, cmd, done + {r}, moves + [Drive(r, PM.NextSyncEv(CurUp(u)))],
                           Paced(p.tree, p.pms[r := Synced(u, r, p.pms[r])]));
    }
  }

  // ---------------------------------------------------------------------------
  // The next leader gathers a quorum of new-view messages

  /** What one more message makes of the leader of view 1. */
  function Gathered(u: Setup, got: set<ReplicaId>, q: ReplicaId, pm: Pacemaker.PM): Pacemaker.PM {
    var t := pm.(views := pm.views[1 := AllOf(u, got + {q})]);
    if |got| + 1 == GetQuorumSize(u.metadata) then t.(fired := t.fired + [1], spawned := t.spawned + [Pacemaker.Beat]) else t
  }

  lemma CountOf(u: Setup, got: set<ReplicaId>)
    ensures |AllOf(u, got)| == |got| && AllOf(u, got).Keys == got
  {
    assert AllOf(u, got).Keys == got;
  }

  lemma GenesisIsIdle(u: Setup)
    requires Sound(u) && GetQuorumSize(u.metadata) > 0
    ensures UpdateHighestQC(EnvOf(u, 1), Initial(EnvOf(u, 1)), Genesis(u.digest), GenesisQc(u)) == Initial(EnvOf(u, 1))
  {
  }

  lemma GatherEffect(u: Setup, cmd: Bytes, done: set<ReplicaId>, got: set<ReplicaId>, q: ReplicaId, pm: Pacemaker.PM)
    requires Spread(u) && 1 in done && 1 in Honest(u) && SyncSeat(u, cmd, done, got, 1, pm)
    requires q !in got && |got| < GetQuorumSize(u.metadata)
    ensures var env, e := EnvOf(u, 1), PM.NewViewEv(q, FirstView(u));
            && Pacemaker.Seated(env) && PM.Handle(env, pm, e) == Gathered(u, got, q, pm)
            && Calls(env, pm, e) == if |got| + 1 == GetQuorumSize(u.metadata) then [ReceiveQC(1, GenesisQc(u))] else []
  {
    SpreadIsSeated(u);
    CountOf(u, got);
    GenesisIsIdle(u);
    assert AllOf(u, got)[q := FirstView(u)] == AllOf(u, got + {q});
  }

  lemma GatherMoves(u: Setup, cmd: Bytes, got: set<ReplicaId>, p: Paced, q: ReplicaId)
    requires Syncing(u, cmd, Honest(u), got, p) && 1 in p.pms
    ensures Syncing(u, cmd, Honest(u), got + {q}, Paced(p.tree, p.pms[1 := Gathered(u, got, q, p.pms[1])]))
  {
    var t := Paced(p.tree, p.pms[1 := Gathered(u, got, q, p.pms[1])]);
    forall x | x in t.pms
      ensures SyncSeat(u, cmd, Honest(u), got + {q}, x, t.pms[x])
    {
      assert SyncSeat(u, cmd, Honest(u), got, x, p.pms[x]);
    }
  }

  predicate IsSender(u: Setup, got: set<ReplicaId>, q: ReplicaId) {
    q in Honest(u) && q !in got && q != 1
  }

  lemma MessageIsThere(u: Setup, cmd: Bytes, got: set<ReplicaId>, moves: seq<Move>, p: Paced, q: ReplicaId)
    requires Spread(u) && Syncing(u, cmd, Honest(u), got, p) && 1 in p.pms && IsSender(u, got, q)
    ensures Caused(u, p, moves, Drive(1, PM.NewViewEv(q, FirstView(u))))
  {
    assert SyncSeat(u, cmd, Honest(u), got, q, p.pms[q]);
  }

  /** A message that does not complete the quorum. */
  lemma GatherOne(u: Setup, rule: VoteRule, cmd: Bytes, got: set<ReplicaId>, moves: seq<Move>, p: Paced, q: ReplicaId)
    requires Spread(u) && Playing(u, rule, moves, p, []) && Syncing(u, cmd, Honest(u), got, p)
    requires 1 in p.pms && IsSender(u, got, q) && |got| + 1 < GetQuorumSize(u.metadata)
    ensures Playing(u, rule, moves + [Drive(1, PM.NewViewEv(q, FirstView(u)))],
                    Paced(p.tree, p.pms[1 := Gathered(u, got, q, p.pms[1])]), [])
  {
    assert SyncSeat(u, cmd, Honest(u), got, 1, p.pms[1]);
    GatherEffect(u, cmd, Honest(u), got, q, p.pms[1]);
    MessageIsThere(u, cmd, got, moves, p, q);
    QuietMove(u, rule, moves, p, [], 1, PM.NewViewEv(q, FirstView(u)));
  }

  /** Considering genesis's certificate is always possible. */
  lemma GenesisIsOffered(u: Setup, rule: VoteRule, s: System)
    requires Exec(u, rule, []) == Some(s) && 1 in s.cores && s.cores[1] == Initial(EnvOf(u, 1))
    ensures var a := ReceiveQC(1, GenesisQc(u));
            Exec(u, rule, [] + [a]) == Some(Apply(u, rule, s, a)) && Orderly(u, rule, [] + [a]) && Grown(u, s, a) == s.tree
  {
    OrderlyAppend(u, rule, [], s, ReceiveQC(1, GenesisQc(u)));
  }

  /** The message that completes the quorum. */
  lemma GatherLast(u: Setup, rule: VoteRule, cmd: Bytes, got: set<ReplicaId>, moves: seq<Move>, p: Paced, q: ReplicaId)
    requires Spread(u) && Playing(u, rule, moves, p, []) && Syncing(u, cmd, Honest(u), got, p)
    requires 1 in p.pms && IsSender(u, got, q) && |got| + 1 == GetQuorumSize(u.metadata)
    ensures Playing(u, rule, moves + [Drive(1, PM.NewViewEv(q, FirstView(u)))],
                    Paced(p.tree, p.pms[1 := Gathered(u, got, q, p.pms[1])]), [] + [ReceiveQC(1, GenesisQc(u))])
  {
    assert SyncSeat(u, cmd, Honest(u), got, 1, p.pms[1]);
    GatherEffect(u, cmd, Honest(u), got, q, p.pms[1]);
    MessageIsThere(u, cmd, got, moves, p, q);
    GenesisIsOffered(u, rule, CoresOf(p));
    CallMove(u, rule, moves, p, [], 1, PM.NewViewEv(q, FirstView(u)), ReceiveQC(1, GenesisQc(u)));
  }

  lemma NextSender(u: Setup, got: set<ReplicaId>) returns (q: ReplicaId)
    requires Spread(u) && 1 in got && got <= Honest(u) && |got| < GetQuorumSize(u.metadata)
    ensures IsSender(u, got, q)
  {
    HonestAreAQuorum(u);
    q := NotYet(Honest(u), got);
  }

  /** The leader of view 1 gathers messages until they are a quorum, and then has a beat to come. */
  lemma {:induction false} AllGather(u: Setup, rule: VoteRule, cmd: Bytes, got: set<ReplicaId>, moves: seq<Move>, p: Paced)
      returns (longer: seq<Move>, q: Paced, all: set<ReplicaId>)
    requires Spread(u) && Playing(u, rule, moves, p, []) && Syncing(u, cmd, Honest(u), got, p)
    requires 1 in p.pms && 1 in got && got <= Honest(u) && |got| < GetQuorumSize(u.metadata)
    ensures Playing(u, rule, longer, q, [] + [ReceiveQC(1, GenesisQc(u))]) && Syncing(u, cmd, Honest(u), all, q)
    ensures 1 in q.pms && Pacemaker.Beat in q.pms[1].spawned
    decreases GetQuorumSize(u.metadata) - |got|
  {
    var x := NextSender(u, got);
    GatherMoves(u, cmd, got, p, x);
    var next, m := moves + [Drive(1, PM.NewViewEv(x, FirstView(u)))],
        Paced(p.tree, p.pms[1 := Gathered(u, got, x, p.pms[1])]);
    if |got| + 1 == GetQuorumSize(u.metadata) {
      GatherLast(u, rule, cmd, got, moves, p, x);
      longer, q, all := next, m, got + {x};
    } else {
      GatherOne(u, rule, cmd, got, moves, p, x);
      longer, q, all := AllGather(u, rule, cmd, got + {x}, next, m);
    }
  }

  lemma GatherFromOne(u: Setup, rule: VoteRule, cmd: Bytes, moves: seq<Move>, p: Paced)
      returns (longer: seq<Move>, q: Paced, got: set<ReplicaId>)
    requires Spread(u) && 1 in Honest(u) && Playing(u, rule, moves, p, []) && Syncing(u, cmd, Honest(u), {1}, p)
    ensures Playing(u, rule, longer, q, [] + [ReceiveQC(1, GenesisQc(u))]) && Syncing(u, cmd, Honest(u), got, q)
    ensures 1 in q.pms && Pacemaker.Beat in q.pms[1].spawned
  {
    SpreadIsSeated(u);
    assert |{1}| == 1;
    longer, q, got := AllGather(u, rule, cmd, {1}, moves, p);
  }

  lemma StartSyncs(u: Setup, cmd: Bytes)
    requires Spread(u) && 1 in Start(u).pms
    ensures Syncing(u, cmd, {}, {1}, Handed(Start(u), 1, cmd))
  {
    var p := Handed(Start(u), 1, cmd);
    forall r | r in p.pms
      ensures SyncSeat(u, cmd, {}, {1}, r, p.pms[r])
    {
    }
  }

  lemma SyncedIsReady(u: Setup, cmds: seq<Bytes>, got: set<ReplicaId>, p: Paced)
    requires Grounds(u, cmds, [Genesis(u.digest)], [Genesis(u.digest)]) && |cmds| > 0 && !Up(u, 0)
    requires Syncing(u, cmds[0], Honest(u), got, p)
    ensures SeatOf(u, 0) == 1 && 1 in p.pms && Ready(u, cmds, [Genesis(u.digest)], [Genesis(u.digest)], p)
  {
    FirstSeat(u);
    assert SyncSeat(u, cmds[0], Honest(u), got, 1, p.pms[1]);
    forall r | r in p.pms
      ensures FreshSeat(u, cmds[0], r, p.pms[r])
    {
      assert SyncSeat(u, cmds[0], Honest(u), got, r, p.pms[r]);
    }
    FreshIsReady(u, cmds, p);
  }

  lemma StartsLate(u: Setup, rule: VoteRule, cmds: seq<Bytes>)
      returns (moves: seq<Move>, p: Paced, run: seq<Action>)
    requires Grounds(u, cmds, [Genesis(u.digest)], [Genesis(u.digest)]) && |cmds| > 0 && !Up(u, 0)
    ensures Rolling(u, rule, cmds, moves, p, run, [Genesis(u.digest)], [Genesis(u.digest)])
  {
    var got;
    moves, p, got := ChangeView(u, rule, cmds[0]);
    run := [] + [ReceiveQC(1, GenesisQc(u))];
    SyncedIsReady(u, cmds, got, p);
    TurnsMore([], ReceiveQC(1, GenesisQc(u)));
    FirstRolls(u, rule, cmds, moves, p, run, 1);
  }

  /** The whole view change: all time out in view 0, whose leader is down, and the leader of view 1 hears of it. */
  lemma ChangeView(u: Setup, rule: VoteRule, cmd: Bytes) returns (moves: seq<Move>, p: Paced, got: set<ReplicaId>)
    requires Spread(u) && !Up(u, 0)
    ensures Playing(u, rule, moves, p, [] + [ReceiveQC(1, GenesisQc(u))]) && Syncing(u, cmd, Honest(u), got, p)
    ensures 1 in p.pms && Pacemaker.Beat in p.pms[1].spawned
  {
    FirstSeat(u);
    StartHanded(u, rule, cmd, 1);
    StartSyncs(u, cmd);
    var next, m := AllSync(u, rule, cmd, {}, [] + [Drive(1, PM.SubmitEv(cmd))], Handed(Start(u), 1, cmd));
    moves, p, got := GatherFromOne(u, rule, cmd, next, m);
  }

  // ---------------------------------------------------------------------------
  // Any number of commands

  lemma RollStarts(u: Setup, rule: VoteRule, cmds: seq<Bytes>)
      returns (moves: seq<Move>, p: Paced, run: seq<Action>, chain: seq<Block>, full: seq<Block>)
    requires Spread(u) && NoRepeat(u.digest, cmds) && NoEmptyHash(u.digest, cmds) && |cmds| > 0
    ensures Rolling(u, rule, cmds, moves, p, run, chain, full) && |chain| == 1
  {
    FreshGrounds(u, cmds);
    chain, full := [Genesis(u.digest)], [Genesis(u.digest)];
    if Up(u, 0) {
      moves, p, run := StartsAtOnce(u, rule, cmds);
    } else {
      moves, p, run := StartsLate(u, rule, cmds);
    }
  }

  lemma {:induction false} Roll(u: Setup, rule: VoteRule, cmds: seq<Bytes>, n: nat)
      returns (moves: seq<Move>, p: Paced, run: seq<Action>, chain: seq<Block>, full: seq<Block>)
    requires Spread(u) && NoRepeat(u.digest, cmds) && NoEmptyHash(u.digest, cmds) && n <= |cmds| && |cmds| > 0
    ensures Rolling(u, rule, cmds, moves, p, run, chain, full) && |chain| == n + 1
  {
    if n == 0 {
      moves, p, run, chain, full := RollStarts(u, rule, cmds);
    } else {
      var m: nat := n - 1;
      moves, p, run, chain, full := Roll(u, rule, cmds, m);
      moves, p, run, chain, full := RollOn(u, rule, cmds, moves, p, run, chain, full);
    }
  }

  lemma ReadyHolds(u: Setup, cmds: seq<Bytes>, chain: seq<Block>, full: seq<Block>, p: Paced)
    requires Grounds(u, cmds, chain, full) && Ready(u, cmds, chain, full, p) && |chain| == |cmds| + 1 >= 4
    ensures p.pms.Keys == Honest(u) && Carries(u.digest, cmds, chain)
    ensures forall r :: r in p.pms ==> DecidedCmds(p.pms[r].core.events) == cmds[..|cmds| - 3]
    ensures forall r :: r in p.pms ==> Holds(cmds, chain, p.pms[r].core)
  {
    forall r | r in p.pms
      ensures DecidedCmds(p.pms[r].core.events) == cmds[..|cmds| - 3] && Holds(cmds, chain, p.pms[r].core)
    {
      assert Waits(u, chain, full, r, p.pms[r]);
      MineIsSame(u, chain, full, r);
      FedHolds(u.digest, cmds, chain, Mine(u, chain, full, r), p.pms[r].core);
    }
  }

  /** For any setup of N >= 2 replicas of which no two that follow each other are down, and any three or more commands
      on which the hash function does not collide and gives no empty hash, there is a run of the replicas with
      their pacemakers in which nothing happens without a cause, connection status is reported as it is, votes
      pass handleVote, and every vote is in order. Command k is proposed in the k-th of the views whose leader's
      turn it is, and every block from the second on justifies the one before by a certificate that verifies. In
      the end every honest replica has decided all commands but the last three, in order. */
  lemma TurnsAreDecided(u: Setup, rule: VoteRule, cmds: seq<Bytes>)
      returns (moves: seq<Move>, p: Paced, run: seq<Action>, chain: seq<Block>)
    requires Spread(u) && NoRepeat(u.digest, cmds) && NoEmptyHash(u.digest, cmds) && |cmds| >= 3
    ensures AllSeated(u) && Play(u, rule, moves) == Some((p, run)) && Natural(u, rule, moves) && Orderly(u, rule, run)
    ensures p.pms.Keys == Honest(u) && Turns(run) == Schedule(u, cmds, |cmds|)
    ensures forall r :: r in p.pms ==> DecidedCmds(p.pms[r].core.events) == cmds[..|cmds| - 3]
    ensures Carries(u.digest, cmds, chain) && Justified(u, chain)
    ensures forall r :: r in p.pms ==> Holds(cmds, chain, p.pms[r].core)
  {
    var full;
    SpreadIsSeated(u);
    moves, p, run, chain, full := Roll(u, rule, cmds, |cmds|);
    ReadyHolds(u, cmds, chain, full, p);
  }

  /** With nobody down command k is proposed in view k by replica k % N. */
  lemma {:induction false} PlainViews(u: Setup, i: nat)
    requires Spread(u) && u.faulty == {}
    ensures ViewOf(u, i) == i && SeatOf(u, i) == i % u.metadata.n
  {
    assert Up(u, i) by {
      assert i % u.metadata.n in u.replicas;
    }
    if i > 0 { PlainViews(u, i - 1); }
  }

  lemma PlainSchedule(u: Setup, cmds: seq<Bytes>)
    requires Spread(u) && u.faulty == {}
    ensures Schedule(u, cmds, |cmds|) == seq(|cmds|, k requires 0 <= k < |cmds| => (k % u.metadata.n, k, cmds[k]))
  {
    forall k | 0 <= k < |cmds|
      ensures Schedule(u, cmds, |cmds|)[k] == (k % u.metadata.n, k, cmds[k])
    {
      PlainViews(u, k);
    }
  }

  lemma VerbatimIsFine(cmds: seq<Bytes>)
    ensures NoRepeat(Verbatim(), cmds) && NoEmptyHash(Verbatim(), cmds)
  {
    VerbatimNeverRepeats(cmds);
    forall i | 1 <= i <= |cmds|
      ensures LedgerHash(Verbatim(), cmds, i) != []
    {
      LengthOfHash(cmds, i);
    }
  }

  lemma FourAreSpread(u: Setup)
    requires u.metadata == ConfigMetadata(4, 1) && u.replicas == {0, 1, 2, 3} && u.faulty <= {0}
    ensures Spread(u)
  {
    assert |{0, 1, 2, 3}| == 4 && |{0}| == 1;
    SubsetCardinality(u.faulty, {0});
    forall v
      ensures OneIsUp(u, v)
    {
      if v % 4 == 0 { DivUnique(v + 1, 4, v / 4, 1); }
    }
  }

  /** Four replicas that are all up, and a hash function that keeps all it is given. */
  lemma FourTakeTurns(rule: VoteRule, cmds: seq<Bytes>)
      returns (u: Setup, moves: seq<Move>, p: Paced, run: seq<Action>, chain: seq<Block>)
    requires |cmds| >= 3
    ensures u == Setup(ConfigMetadata(4, 1), {0, 1, 2, 3}, {}, Verbatim()) && Sound(u) && AllSeated(u)
    ensures Play(u, rule, moves) == Some((p, run)) && Natural(u, rule, moves) && Orderly(u, rule, run)
    ensures p.pms.Keys == {0, 1, 2, 3}
    ensures Turns(run) == seq(|cmds|, k requires 0 <= k < |cmds| => (k % 4, k, cmds[k]))
    ensures forall r :: r in p.pms ==> DecidedCmds(p.pms[r].core.events) == cmds[..|cmds| - 3]
    ensures Carries(u.digest, cmds, chain) && Justified(u, chain)
    ensures forall r :: r in p.pms ==> Holds(cmds, chain, p.pms[r].core)
  {
    u := Setup(ConfigMetadata(4, 1), {0, 1, 2, 3}, {}, Verbatim());
    FourAreSpread(u);
    VerbatimIsFine(cmds);
    moves, p, run, chain := TurnsAreDecided(u, rule, cmds);
    PlainSchedule(u, cmds);
  }

  lemma ThreeUp(u: Setup, v: nat)
    requires u.metadata.n == 4 && Honest(u) == {1, 2, 3}
    ensures Up(u, v) <==> v % 4 != 0
  {
  }

  /** With replica 0 of four down the others take turns, and every fourth view is skipped. */
  lemma {:induction false} ThreeViews(u: Setup, i: nat)
    requires u.metadata.n == 4 && Honest(u) == {1, 2, 3}
    ensures ViewOf(u, i) == i + i / 3 + 1
  {
    if i == 0 {
      ThreeUp(u, 0);
    } else {
      ThreeViews(u, i - 1);
      ThreeUp(u, i - 1 + (i - 1) / 3 + 2);
    }
  }

  lemma ThreeSeats(k: nat)
    ensures (k + k / 3 + 1) % 4 == k % 3 + 1
  {
  }

  lemma ThreeSchedule(u: Setup, cmds: seq<Bytes>)
    requires u.metadata.n == 4 && Honest(u) == {1, 2, 3}
    ensures Schedule(u, cmds, |cmds|) == seq(|cmds|, k requires 0 <= k < |cmds| => (k % 3 + 1, k + k / 3 + 1, cmds[k]))
  {
    forall k | 0 <= k < |cmds|
      ensures Schedule(u, cmds, |cmds|)[k] == (k % 3 + 1, k + k / 3 + 1, cmds[k])
    {
      ThreeViews(u, k);
      ThreeSeats(k);
    }
  }

  /** Four replicas of which the first leader is down: the others change view, and whenever its turn comes again it
      is skipped. */
  lemma ThreeGoOn(rule: VoteRule, cmds: seq<Bytes>)
      returns (u: Setup, moves: seq<Move>, p: Paced, run: seq<Action>, chain: seq<Block>)
    requires |cmds| >= 3
    ensures u == Setup(ConfigMetadata(4, 1), {0, 1, 2, 3}, {0}, Verbatim()) && Sound(u) && AllSeated(u)
    ensures Play(u, rule, moves) == Some((p, run)) && Natural(u, rule, moves) && Orderly(u, rule, run)
    ensures p.pms.Keys == {1, 2, 3}
    ensures Turns(run) == seq(|cmds|, k requires 0 <= k < |cmds| => (k % 3 + 1, k + k / 3 + 1, cmds[k]))
    ensures forall r :: r in p.pms ==> DecidedCmds(p.pms[r].core.events) == cmds[..|cmds| - 3]
    ensures Carries(u.digest, cmds, chain) && Justified(u, chain)
    ensures forall r :: r in p.pms ==> Holds(cmds, chain, p.pms[r].core)
  {
    u := Setup(ConfigMetadata(4, 1), {0, 1, 2, 3}, {0}, Verbatim());
    assert Honest(u) == {1, 2, 3};
    FourAreSpread(u);
    VerbatimIsFine(cmds);
    moves, p, run, chain := TurnsAreDecided(u, rule, cmds);
    ThreeSchedule(u, cmds);
  }
}
