/** Runs of the replicas with their pacemakers in which nothing happens without a cause: only messages that were
    sent arrive, and handlers run only for what their core announced or a pacemaker started. */
module PacedMoves {
  import opened Types
  import opened Replica
  import opened World
  import opened System
  import opened OrderlyRuns
  import opened PacedRuns
  import opened HotStuffBase
  import opened VoteRoute
  import Pacemaker
  import PM = PacemakerRuns

  predicate IsBeat(m: Move, r: ReplicaId) {
    m.Drive? && m.r == r && m.e.BeatEv?
  }

  predicate NoBeat(moves: seq<Move>, r: ReplicaId) {
    forall i :: 0 <= i < |moves| ==> !IsBeat(moves[i], r)
  }

  /** Every pacemaker starts with one OnBeat under way, and starts further ones. */
  predicate BeatDue(moves: seq<Move>, r: ReplicaId, pm: Pacemaker.PM) {
    Pacemaker.Beat in pm.spawned || NoBeat(moves, r)
  }

  /** Some replica has sent the message. */
  predicate OnTheWay(p: Paced, m: Pacemaker.Sent) {
    exists q :: q in p.pms && m in p.pms[q].sent
  }

  ghost predicate Announced(c: Core, e: PM.PMEvent) {
    match e
    case ProposeEv(v, b, _) => ProposeEvent(Proposal(v, b)) in c.events
    case ProposalEv(v, vote, _) => exists b :: ReceiveProposalEvent(Proposal(v, b), vote) in c.events
    case QcFinishEv(qc) => exists q :: QcFinishEvent(q, qc) in c.events
    case _ => false
  }

  /** What the network reports when asked about the leader of a view... */
  function CurUp(u: Setup): int -> bool
    requires u.metadata.n > 0
  {
    v => v % u.metadata.n in Honest(u)
  }

  /** ...and about the leader after it: that a replica is down exactly if it is faulty. */
  function NextUp(u: Setup): int -> bool
    requires u.metadata.n > 0
  {
    v => (v + 1) % u.metadata.n in Honest(u)
  }

  /** Connection status is reported truthfully. */
  ghost predicate Truthful(u: Setup, e: PM.PMEvent)
    requires u.metadata.n > 0
  {
    match e
    case ProposeEv(_, _, status) => status == NextUp(u)
    case ProposalEv(_, _, status) => status == NextUp(u)
    case NextSyncEv(status) => status == CurUp(u)
    case _ => true
  }

  /** What makes the move happen, in the state in which it is made. Commands come from outside, and a timer may run
      out at any time. A vote from the network has to pass handleVote. */
  ghost predicate Caused(u: Setup, p: Paced, earlier: seq<Move>, m: Move) {
    u.metadata.n > 0 &&
    match m
    case Arrive(Deliver(_, prop)) => OnTheWay(p, Pacemaker.ProposalToAll(prop.viewNumber, prop.block))
    case Arrive(CastVote(r, vote)) =>
      OnTheWay(p, Pacemaker.VoteTo(r, vote)) && Admits(EnvOf(u, r), vote.voter, Wire(vote))
    case Arrive(_) => false
    case Drive(r, e) =>
      && r in p.pms && Truthful(u, e)
      && match e
         case SubmitEv(_) => true
         case NextSyncEv(_) => true
         case BeatEv(_) => BeatDue(earlier, r, p.pms[r])
         case NewViewEv(q, nv) => q in p.pms && Pacemaker.NewViewTo(r, nv) in p.pms[q].sent
         case _ => Announced(p.pms[r].core, e)
  }

  ghost predicate Natural(u: Setup, rule: VoteRule, moves: seq<Move>)
    requires AllSeated(u)
  {
    moves == [] ||
    var before := moves[..|moves| - 1];
    && Natural(u, rule, before) && Play(u, rule, before).Some?
    && Caused(u, Play(u, rule, before).value.0, before, moves[|moves| - 1])
  }

  /** The moves lead to `p` by the orderly calls `run`, each of them for a reason. */
  ghost predicate Playing(u: Setup, rule: VoteRule, moves: seq<Move>, p: Paced, run: seq<Action>) {
    && AllSeated(u) && Play(u, rule, moves) == Some((p, run)) && Natural(u, rule, moves)
    && Orderly(u, rule, run) && Exec(u, rule, run) == Some(CoresOf(p))
  }

  lemma StartPlaying(u: Setup, rule: VoteRule)
    requires AllSeated(u)
    ensures Playing(u, rule, [], Start(u), [])
  {
    PacedIsRun(u, rule, []);
  }

  lemma GoOn(u: Setup, rule: VoteRule, moves: seq<Move>, p: Paced, run: seq<Action>, m: Move, q: Paced)
    requires Playing(u, rule, moves, p, run) && p.pms.Keys == Honest(u) && Sensible(u, p, m)
    requires MoveOn(u, rule, p, m) == Some(q) && Caused(u, p, moves, m) && Orderly(u, rule, run + MoveCalls(u, p, m))
    ensures Playing(u, rule, moves + [m], q, run + MoveCalls(u, p, m))
  {
    LastMove(moves, m);
    PlayMore(u, rule, moves, p, run, m, q, moves + [m]);
    NaturalMore(u, rule, moves, p, run, m, moves + [m]);
    PacedIsRun(u, rule, moves + [m]);
  }

  lemma LastMove(moves: seq<Move>, m: Move)
    ensures moves + [m] != [] && (moves + [m])[..|moves + [m]| - 1] == moves && (moves + [m])[|moves + [m]| - 1] == m
  {
  }

  lemma PlayMore(u: Setup, rule: VoteRule, moves: seq<Move>, p: Paced, run: seq<Action>, m: Move, q: Paced, all: seq<Move>)
    requires AllSeated(u) && Play(u, rule, moves) == Some((p, run)) && Sensible(u, p, m) && MoveOn(u, rule, p, m) == Some(q)
    requires all != [] && all[..|all| - 1] == moves && all[|all| - 1] == m
    ensures Play(u, rule, all) == Some((q, run + MoveCalls(u, p, m)))
  {
  }

  lemma NaturalMore(u: Setup, rule: VoteRule, moves: seq<Move>, p: Paced, run: seq<Action>, m: Move, all: seq<Move>)
    requires AllSeated(u) && Play(u, rule, moves) == Some((p, run)) && Natural(u, rule, moves) && Caused(u, p, moves, m)
    requires all != [] && all[..|all| - 1] == moves && all[|all| - 1] == m
    ensures Natural(u, rule, all)
  {
  }

  /** A handler that leaves its core alone. */
  lemma QuietMove(u: Setup, rule: VoteRule, moves: seq<Move>, p: Paced, run: seq<Action>, r: ReplicaId, e: PM.PMEvent)
    requires Playing(u, rule, moves, p, run) && p.pms.Keys == Honest(u) && r in p.pms && !e.CoreEv?
    requires Calls(EnvOf(u, r), p.pms[r], e) == [] && Caused(u, p, moves, Drive(r, e))
    ensures Playing(u, rule, moves + [Drive(r, e)], Paced(p.tree, p.pms[r := PM.Handle(EnvOf(u, r), p.pms[r], e)]), run)
  {
    assert run + [] == run;
    GoOn(u, rule, moves, p, run, Drive(r, e), Paced(p.tree, p.pms[r := PM.Handle(EnvOf(u, r), p.pms[r], e)]));
  }

  lemma PerformOne(u: Setup, rule: VoteRule, run: seq<Action>, s: System, a: Action)
    requires Exec(u, rule, run) == Some(s) && Exec(u, rule, run + [a]).Some?
    ensures Acts(s, a) && Perform(u, rule, s, [a]) == Some(Apply(u, rule, s, a))
  {
    assert (run + [a])[..|run|] == run;
    assert [a][..0] == [] && Perform(u, rule, s, []) == Some(s);
  }

  /** A handler that makes one call on its core. */
  lemma CallMove(u: Setup, rule: VoteRule, moves: seq<Move>, p: Paced, run: seq<Action>, r: ReplicaId, e: PM.PMEvent, a: Action)
    requires Playing(u, rule, moves, p, run) && p.pms.Keys == Honest(u) && r in p.pms && !e.CoreEv?
    requires Calls(EnvOf(u, r), p.pms[r], e) == [a] && Caused(u, p, moves, Drive(r, e))
    requires Exec(u, rule, run + [a]).Some? && Orderly(u, rule, run + [a])
    ensures Acts(CoresOf(p), a)
    ensures Playing(u, rule, moves + [Drive(r, e)],
                    Paced(Grown(u, CoresOf(p), a), p.pms[r := PM.Handle(EnvOf(u, r), p.pms[r], e)]), run + [a])
  {
    PerformOne(u, rule, run, CoresOf(p), a);
    GoOn(u, rule, moves, p, run, Drive(r, e),
         Paced(Grown(u, CoresOf(p), a), p.pms[r := PM.Handle(EnvOf(u, r), p.pms[r], e)]));
  }

  /** A message that reaches a core. */
  lemma ArriveMove(u: Setup, rule: VoteRule, moves: seq<Move>, p: Paced, run: seq<Action>, a: Action)
    requires Playing(u, rule, moves, p, run) && p.pms.Keys == Honest(u) && (a.Deliver? || a.CastVote?) && a.r in p.pms
    requires Caused(u, p, moves, Arrive(a)) && Exec(u, rule, run + [a]).Some? && Orderly(u, rule, run + [a])
    ensures Acts(CoresOf(p), a)
    ensures Playing(u, rule, moves + [Arrive(a)],
                    Paced(Grown(u, CoresOf(p), a), p.pms[a.r := p.pms[a.r].(core := Handle(u, rule, CoresOf(p), a))]),
                    run + [a])
  {
    PerformOne(u, rule, run, CoresOf(p), a);
    GoOn(u, rule, moves, p, run, Arrive(a),
         Paced(Grown(u, CoresOf(p), a), p.pms[a.r := p.pms[a.r].(core := Handle(u, rule, CoresOf(p), a))]));
  }
}
