/** The system with its pacemakers: every replica's core is driven by its own RoundRobinPM. Every run of it is
    a run of the system of cores, so what holds there holds here. */
module PacedRuns {
  import opened Types
  import opened Replica
  import opened BlockTree
  import opened World
  import opened System
  import opened OrderlyRuns
  import opened Agreement
  import Pacemaker
  import PM = PacemakerRuns

  datatype Paced = Paced(tree: Tree, pms: map<ReplicaId, Pacemaker.PM>)

  /** A pacemaker handler runs, or a message reaches a core directly. */
  datatype Move = Drive(r: ReplicaId, e: PM.PMEvent) | Arrive(a: Action)

  function CoresOf(p: Paced): System {
    System(p.tree, map r | r in p.pms :: p.pms[r].core)
  }

  /** Everybody takes turns as leader. */
  predicate AllSeated(u: Setup) {
    forall r :: r in Honest(u) ==> Pacemaker.Seated(EnvOf(u, r))
  }

  function Start(u: Setup): Paced {
    Paced(Init(u).tree, map r | r in Honest(u) :: Pacemaker.Initially(EnvOf(u, r)))
  }

  // ---------------------------------------------------------------------------
  // The calls of a pacemaker on its core

  function Repeat(a: Action, m: nat): seq<Action> {
    if m == 0 then [] else Repeat(a, m - 1) + [a]
  }

  /** A new-view message makes the core consider the certificate it brings. */
  function NewViewCalls(env: Env, p: Pacemaker.PM, id: ReplicaId, nv: NewView): seq<Action> {
    if nv.viewNumber < p.curView || nv.genericQc.blockHash !in p.core.blockCache then []
    else if nv.genericQc.viewNumber > p.core.genericQC.viewNumber ||
            (nv.viewNumber <= p.curView && Pacemaker.Fires(env, p, id, nv)) then [ReceiveQC(env.id, nv.genericQc)]
    else []
  }

  function Calls(env: Env, p: Pacemaker.PM, e: PM.PMEvent): seq<Action>
    requires Pacemaker.Seated(env)
  {
    match e
    case NextSyncEv(status) =>
      var p1 := p.(curView := Pacemaker.NextLive(p.curView, env.id, env.metadata.n, status));
      if Pacemaker.GetCurLeader(env.metadata.n, p1.curView) == env.id && p1.queue != []
      then NewViewCalls(env, p1, env.id, Pacemaker.CurrentNewView(p1)) else []
    case ProposeEv(_, _, _) => []
    case ProposalEv(viewNumber, vote, status) =>
      if Pacemaker.GetLeader(env.metadata.n, Pacemaker.RoutedView(env, p, viewNumber, status)) == env.id
      then Repeat(CastVote(env.id, vote), Pacemaker.Repeats(env, p, viewNumber, status)) else []
    case NewViewEv(id, nv) => NewViewCalls(env, p, id, nv)
    case QcFinishEv(_) => []
    case QcHighEv(_) => []
    case BeatEv(timestamp) =>
      if p.queue != [] && Pacemaker.GetCurLeader(env.metadata.n, p.curView) == env.id
      then [Propose(env.id, p.curView, p.queue[0], timestamp)] else []
    case SubmitEv(_) => []
    case CoreEv(_) => []
  }

  // ---------------------------------------------------------------------------
  // Their effect

  /** The system after further calls, if each is possible when it is made. */
  function Perform(u: Setup, rule: VoteRule, s: System, calls: seq<Action>): Option<System> {
    if calls == [] then Some(s)
    else match Perform(u, rule, s, calls[..|calls| - 1])
      case None => None
      case Some(t) =>
        var a := calls[|calls| - 1];
        if Enabled(u, t, a) then Some(Apply(u, rule, t, a)) else None
  }

  lemma {:induction false} ExecThenPerform(u: Setup, rule: VoteRule, run: seq<Action>, s: System, calls: seq<Action>)
    requires Exec(u, rule, run) == Some(s) && Perform(u, rule, s, calls).Some?
    ensures Exec(u, rule, run + calls) == Perform(u, rule, s, calls)
    decreases |calls|
  {
    if calls == [] {
      assert run + calls == run;
    } else {
      var before, a := calls[..|calls| - 1], calls[|calls| - 1];
      assert calls == before + [a];
      LastCall(u, rule, s, before, a);
      ExecThenPerform(u, rule, run, s, before);
      ExecAppend(u, rule, run + before, Perform(u, rule, s, before).value, a);
      Regroup(run, before, a);
    }
  }

  lemma Regroup<T>(a: seq<T>, b: seq<T>, x: T)
    ensures (a + b) + [x] == a + (b + [x])
  {
  }

  /** A vote passed on to oneself m times is m votes cast. */
  lemma {:induction false} PassingIsCasting(u: Setup, rule: VoteRule, s: System, r: ReplicaId, p: Pacemaker.PM, view: int, vote: Vote, m: nat)
    requires Pacemaker.Seated(EnvOf(u, r)) && Pacemaker.GetLeader(u.metadata.n, view) == r
    requires r in s.cores && s.cores[r] == p.core && Perform(u, rule, s, Repeat(CastVote(r, vote), m)).Some?
    ensures var t := Perform(u, rule, s, Repeat(CastVote(r, vote), m)).value;
            t == s.(cores := s.cores[r := Pacemaker.PassTimes(EnvOf(u, r), p, view, vote, m).core])
  {
    var a := CastVote(r, vote);
    if m == 0 {
      assert s.cores[r := p.core] == s.cores;
    } else {
      LastCall(u, rule, s, Repeat(a, m - 1), a);
      PassingIsCasting(u, rule, s, r, p, view, vote, m - 1);
      CastApplies(u, rule, s, r, vote, Pacemaker.PassTimes(EnvOf(u, r), p, view, vote, m - 1).core);
    }
  }

  lemma LastCall(u: Setup, rule: VoteRule, s: System, calls: seq<Action>, a: Action)
    requires Perform(u, rule, s, calls + [a]).Some?
    ensures var t := Perform(u, rule, s, calls);
            t.Some? && Enabled(u, t.value, a) && Perform(u, rule, s, calls + [a]) == Some(Apply(u, rule, t.value, a))
  {
    assert (calls + [a])[..|calls + [a]| - 1] == calls;
  }

  lemma CastApplies(u: Setup, rule: VoteRule, s: System, r: ReplicaId, vote: Vote, c: Core)
    requires r in s.cores
    ensures Apply(u, rule, s.(cores := s.cores[r := c]), CastVote(r, vote)) ==
            s.(cores := s.cores[r := OnProposalVote(EnvOf(u, r), c, vote).core])
  {
  }

  lemma OneCall(u: Setup, rule: VoteRule, s: System, a: Action)
    requires Perform(u, rule, s, [a]).Some?
    ensures Enabled(u, s, a) && Perform(u, rule, s, [a]) == Some(Apply(u, rule, s, a))
  {
    assert [] + [a] == [a];
    LastCall(u, rule, s, [], a);
  }

  lemma NewViewIsCalls(u: Setup, rule: VoteRule, s: System, r: ReplicaId, p: Pacemaker.PM, id: ReplicaId, nv: NewView)
    requires r in s.cores && s.cores[r] == p.core && Perform(u, rule, s, NewViewCalls(EnvOf(u, r), p, id, nv)).Some?
    ensures var t := Perform(u, rule, s, NewViewCalls(EnvOf(u, r), p, id, nv)).value;
            t.cores == s.cores[r := Pacemaker.OnReceiveNewView(EnvOf(u, r), p, id, nv).core]
  {
    var calls := NewViewCalls(EnvOf(u, r), p, id, nv);
    if calls == [] {
      assert s.cores[r := p.core] == s.cores;
    } else {
      OneCall(u, rule, s, ReceiveQC(r, nv.genericQc));
    }
  }

  /** What a pacemaker handler does to its core is what its calls do, and nothing else. */
  lemma DriveIsCalls(u: Setup, rule: VoteRule, s: System, r: ReplicaId, p: Pacemaker.PM, e: PM.PMEvent)
    requires Pacemaker.Seated(EnvOf(u, r)) && !e.CoreEv? && r in s.cores && s.cores[r] == p.core
    requires Perform(u, rule, s, Calls(EnvOf(u, r), p, e)).Some?
    ensures var t := Perform(u, rule, s, Calls(EnvOf(u, r), p, e)).value;
            t.cores == s.cores[r := PM.Handle(EnvOf(u, r), p, e).core]
  {
    var env := EnvOf(u, r);
    assert s.cores[r := p.core] == s.cores;
    match e
    case NextSyncEv(status) =>
      var p1 := p.(curView := Pacemaker.NextLive(p.curView, r, u.metadata.n, status));
      if Pacemaker.GetCurLeader(u.metadata.n, p1.curView) == r && p1.queue != [] {
        NewViewIsCalls(u, rule, s, r, p1, r, Pacemaker.CurrentNewView(p1));
      }
    case ProposalEv(viewNumber, vote, status) =>
      var v, m := Pacemaker.RoutedView(env, p, viewNumber, status), Pacemaker.Repeats(env, p, viewNumber, status);
      var p1 := p.(curView := Pacemaker.Settle(Pacemaker.Max(p.curView, viewNumber), r, u.metadata.n, status));
      if Pacemaker.GetLeader(u.metadata.n, v) == r {
        PassingIsCasting(u, rule, s, r, p1, v, vote, m);
      } else {
        PM.PassedToOther(env, p1, v, vote, m);
      }
    case NewViewEv(id, nv) => NewViewIsCalls(u, rule, s, r, p, id, nv);
    case BeatEv(timestamp) =>
      if p.queue != [] && Pacemaker.GetCurLeader(u.metadata.n, p.curView) == r {
        OneCall(u, rule, s, Propose(r, p.curView, p.queue[0], timestamp));
      }
    case ProposeEv(_, _, _) =>
    case QcFinishEv(_) =>
    case QcHighEv(_) =>
    case SubmitEv(_) =>
  }

  // ---------------------------------------------------------------------------
  // Runs

  function MoveCalls(u: Setup, p: Paced, m: Move): seq<Action>
    requires m.Drive? ==> m.r in p.pms && Pacemaker.Seated(EnvOf(u, m.r))
  {
    match m
    case Drive(r, e) => Calls(EnvOf(u, r), p.pms[r], e)
    case Arrive(a) => [a]
  }

  /** A pacemaker handler other than a bare change of its core, or a block that appears, or a proposal or a vote
      that arrives. */
  predicate Sensible(u: Setup, p: Paced, m: Move) {
    match m
    case Drive(r, e) => r in p.pms && !e.CoreEv?
    case Arrive(a) => a.Appear? || ((a.Deliver? || a.CastVote?) && a.r in p.pms)
  }

  /** The state after one move, if all its calls are possible. */
  function MoveOn(u: Setup, rule: VoteRule, p: Paced, m: Move): Option<Paced>
    requires AllSeated(u) && p.pms.Keys == Honest(u) && Sensible(u, p, m)
  {
    match Perform(u, rule, CoresOf(p), MoveCalls(u, p, m))
    case None => None
    case Some(t) =>
      match m
      case Drive(r, e) => Some(Paced(t.tree, p.pms[r := PM.Handle(EnvOf(u, r), p.pms[r], e)]))
      case Arrive(a) =>
        if a.Appear? then Some(Paced(t.tree, p.pms))
        else Some(Paced(t.tree, p.pms[a.r := p.pms[a.r].(core := Handle(u, rule, CoresOf(p), a))]))
  }

  /** Each core is where its calls take it. */
  lemma MoveIsCalls(u: Setup, rule: VoteRule, p: Paced, m: Move)
    requires AllSeated(u) && p.pms.Keys == Honest(u) && Sensible(u, p, m) && MoveOn(u, rule, p, m).Some?
    ensures var q := MoveOn(u, rule, p, m).value;
            q.pms.Keys == Honest(u) && Perform(u, rule, CoresOf(p), MoveCalls(u, p, m)) == Some(CoresOf(q))
  {
    var s, q := CoresOf(p), MoveOn(u, rule, p, m).value;
    match m
    case Drive(r, e) =>
      DriveIsCalls(u, rule, s, r, p.pms[r], e);
      assert CoresOf(q).cores == s.cores[r := q.pms[r].core];
    case Arrive(a) => ArriveIsCall(u, rule, p, a);
  }

  lemma ArriveIsCall(u: Setup, rule: VoteRule, p: Paced, a: Action)
    requires AllSeated(u) && p.pms.Keys == Honest(u) && Sensible(u, p, Arrive(a)) && MoveOn(u, rule, p, Arrive(a)).Some?
    ensures var q := MoveOn(u, rule, p, Arrive(a)).value;
            q.pms.Keys == Honest(u) && Perform(u, rule, CoresOf(p), [a]) == Some(CoresOf(q))
  {
    var s, q := CoresOf(p), MoveOn(u, rule, p, Arrive(a)).value;
    OneCall(u, rule, s, a);
    assert CoresOf(q).cores == Apply(u, rule, s, a).cores;
  }

  /** The state after the moves, and all calls made on the way. */
  function Play(u: Setup, rule: VoteRule, moves: seq<Move>): (r: Option<(Paced, seq<Action>)>)
    requires AllSeated(u)
    ensures r.Some? ==> r.value.0.pms.Keys == Honest(u)
  {
    if moves == [] then Some((Start(u), []))
    else match Play(u, rule, moves[..|moves| - 1])
      case None => None
      case Some((p, run)) =>
        var m := moves[|moves| - 1];
        if !Sensible(u, p, m) then None
        else match MoveOn(u, rule, p, m)
          case None => None
          case Some(q) => Some((q, run + MoveCalls(u, p, m)))
  }

  /** Every run of the replicas with their pacemakers is a run of the cores. */
  lemma {:induction false} PacedIsRun(u: Setup, rule: VoteRule, moves: seq<Move>)
    requires AllSeated(u) && Play(u, rule, moves).Some?
    ensures var (p, run) := Play(u, rule, moves).value; Exec(u, rule, run) == Some(CoresOf(p))
    decreases |moves|
  {
    if moves == [] {
      assert CoresOf(Start(u)).cores == Init(u).cores;
    } else {
      var m := moves[|moves| - 1];
      PacedIsRun(u, rule, moves[..|moves| - 1]);
      var (p, run) := Play(u, rule, moves[..|moves| - 1]).value;
      MoveIsCalls(u, rule, p, m);
      ExecThenPerform(u, rule, run, CoresOf(p), MoveCalls(u, p, m));
    }
  }

  /** So the replicas with their pacemakers agree. */
  lemma PacedAgreement(u: Setup, rule: VoteRule, moves: seq<Move>, r: ReplicaId, q: ReplicaId, b: Block, c: Block)
    requires Sound(u) && AllSeated(u) && Play(u, rule, moves).Some? && Orderly(u, rule, Play(u, rule, moves).value.1)
    requires var p := Play(u, rule, moves).value.0;
             && r in p.pms && DecideEvent(b) in p.pms[r].core.events
             && q in p.pms && DecideEvent(c) in p.pms[q].core.events
    ensures OnOneBranch(Play(u, rule, moves).value.0.tree, b, c)
  {
    var (p, run) := Play(u, rule, moves).value;
    PacedIsRun(u, rule, moves);
    RunInv(u, rule, run);
    DecidedBlocksComparable(u, CoresOf(p), r, q, b, c);
  }
}
