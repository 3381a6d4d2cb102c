/** The way of a vote: what OnReceiveProposal announces, where the pacemaker sends it, and who counts it. */
module VoteRoute {
  import opened Types
  import opened Entity
  import opened Replica
  import opened World
  import opened HotStuffBase
  import Pacemaker
  import PM = PacemakerRuns

  function Wire(vote: Vote): WireVote {
    WireVote(vote.viewNumber, vote.voter, vote.blockHash, Some(vote.cert))
  }

  /** Replica `id` leads the view after `view`. Go's remainder takes the sign of the dividend. */
  predicate LeadsAfter(n: int, view: int, id: ReplicaId)
    requires n > 0
  {
    if view >= -1 then (view + 1) % n == id else (-view - 1) % n == -id
  }

  /** handleVote lets exactly those votes through that are complete, carry the sender's own signature on the block
      hash, and come to the leader of the view after theirs. */
  lemma AdmittedIff(env: Env, from: ReplicaId, v: WireVote)
    requires env.metadata.n > 0
    ensures Admits(env, from, v) <==>
              && v.blockHash != [] && v.cert.Some? && v.voter == from && from in env.replicas
              && v.cert.value.signature == Signature(from, v.blockHash) && LeadsAfter(env.metadata.n, v.viewNumber, env.id)
  {
  }

  /** The vote of `id` on a hash, in the view of the proposal. */
  predicate IsVote(vote: Vote, view: int, id: ReplicaId, hash: Hash) {
    vote == Vote(view, id, hash, PartCert(id, Signature(id, hash)))
  }

  /** The handler gets as far as sending a vote. */
  predicate Reaches(env: Env, rule: VoteRule, c: Core, block: Block) {
    var u := Absorb(env, c, block);
    u.ok && (Judge(u.core, block).Raise? || (rule.AsWritten? && Judge(u.core, block).Leave?))
  }

  /** OnReceiveProposal announces a vote exactly if it gets that far, as its last event, and it is this replica's
      own vote on the block's hash in the proposal's view. */
  lemma AnnouncedVote(env: Env, rule: VoteRule, c: Core, prop: Proposal)
    ensures var u, d := Absorb(env, c, prop.block).core, OnReceiveProposal(env, rule, c, prop).core;
            if Reaches(env, rule, c, prop.block)
            then && |d.events| == |u.events| + 1 && d.events[..|u.events|] == u.events
                 && d.events[|u.events|].ReceiveProposalEvent? && d.events[|u.events|].received == prop
                 && IsVote(d.events[|u.events|].vote, prop.viewNumber, env.id, prop.block.selfQc.blockHash)
            else d.events == u.events
  {
  }

  lemma SameRemainder(n: int, a: int, b: int)
    requires n > 0
    ensures a % n == b % n <==> (a - b) % n == 0
  {
    var p, q := a / n, b / n;
    if a % n == b % n {
      assert a - b == n * (p - q) + 0 by {
        assert n * (p - q) == n * p - n * q;
      }
      DivUnique(a - b, n, p - q, 0);
    }
    if (a - b) % n == 0 {
      var k := (a - b) / n;
      assert a == n * (q + k) + b % n by {
        assert n * (q + k) == n * q + n * k;
      }
      DivUnique(a, n, q + k, b % n);
    }
  }

  /** A vote of view `k` of replica `r`: of the replicas that take turns, (k + 1) % n admits it and no other does. */
  lemma OneCounter(u: Setup, r: ReplicaId, k: int, hash: Hash, vote: Vote, x: ReplicaId)
    requires u.metadata.n > 0 && r in u.replicas && k >= 0 && hash != [] && IsVote(vote, k, r, hash)
    ensures Admits(EnvOf(u, x), r, Wire(vote)) <==> x == (k + 1) % u.metadata.n
  {
    AdmittedIff(EnvOf(u, x), r, Wire(vote));
  }

  /** So every vote that OnReceiveProposal announces has exactly one replica to count it: the leader of the view after
      the proposal's. */
  lemma VoteFindsCounter(u: Setup, rule: VoteRule, r: ReplicaId, c: Core, prop: Proposal, x: ReplicaId)
    requires u.metadata.n > 0 && r in u.replicas && prop.viewNumber >= 0 && prop.block.selfQc.blockHash != []
    requires Reaches(EnvOf(u, r), rule, c, prop.block)
    ensures var es := OnReceiveProposal(EnvOf(u, r), rule, c, prop).core.events;
            && es != [] && es[|es| - 1].ReceiveProposalEvent?
            && (Admits(EnvOf(u, x), r, Wire(es[|es| - 1].vote)) <==> x == (prop.viewNumber + 1) % u.metadata.n)
  {
    var es := OnReceiveProposal(EnvOf(u, r), rule, c, prop).core.events;
    AnnouncedVote(EnvOf(u, r), rule, c, prop);
    OneCounter(u, r, prop.viewNumber, prop.block.selfQc.blockHash, es[|es| - 1].vote, x);
  }

  // ---------------------------------------------------------------------------
  // What the pacemaker does with it

  lemma {:induction false} CopiesAre(x: Pacemaker.Sent, m: nat)
    ensures |PM.Copies(x, m)| == m && forall i :: 0 <= i < m ==> PM.Copies(x, m)[i] == x
  {
    if m > 0 { CopiesAre(x, m - 1); }
  }

  /** The pacemaker sends a vote it has for a proposal of view `k` to the leader of the view after the one it ends
      in. That leader admits it if and only if the two views are a multiple of N apart. */
  lemma RoutedVoteAdmittedIff(u: Setup, r: ReplicaId, p: Pacemaker.PM, k: nat, hash: Hash, vote: Vote, status: int -> bool)
    requires 0 <= r < u.metadata.n && r in u.replicas && p.curView >= 0 && hash != [] && IsVote(vote, k, r, hash)
    ensures var n, v := u.metadata.n, Pacemaker.RoutedView(EnvOf(u, r), p, k, status);
            var t := Pacemaker.OnReceiveProposal(EnvOf(u, r), p, k, vote, status);
            && p.sent <= t.sent && (t.sent != p.sent <==> (v + 1) % n != r)
            && (forall i :: |p.sent| <= i < |t.sent| ==> t.sent[i] == Pacemaker.VoteTo((v + 1) % n, vote))
            && (Admits(EnvOf(u, (v + 1) % n), r, Wire(vote)) <==> (v - k) % n == 0)
  {
    var n, env := u.metadata.n, EnvOf(u, r);
    var v, m := Pacemaker.RoutedView(env, p, k, status), Pacemaker.Repeats(env, p, k, status);
    var p1 := p.(curView := Pacemaker.Settle(Pacemaker.Max(p.curView, k), r, n, status));
    OneCounter(u, r, k, hash, vote, (v + 1) % n);
    SameRemainder(n, v + 1, k + 1);
    if (v + 1) % n == r {
      PassedInside(env, p1, v, vote, m);
    } else {
      PM.PassedToOther(env, p1, v, vote, m);
      CopiesAre(Pacemaker.VoteTo((v + 1) % n, vote), m);
    }
  }

  lemma {:induction false} PassedInside(env: Env, p: Pacemaker.PM, v: int, vote: Vote, m: nat)
    requires Pacemaker.Seated(env) && Pacemaker.GetLeader(env.metadata.n, v) == env.id
    ensures Pacemaker.PassTimes(env, p, v, vote, m).sent == p.sent
  {
    if m > 0 { PassedInside(env, p, v, vote, m - 1); }
  }

  /** The leader after view x is this replica or was reported connected. */
  predicate Follows(env: Env, status: int -> bool, x: int)
    requires env.metadata.n > 0
  {
    (x + 1) % env.metadata.n == env.id || status(x)
  }

  ghost predicate FirstFrom(env: Env, w: int, v: int, status: int -> bool)
    requires env.metadata.n > 0
  {
    w <= v && Follows(env, status, v) && forall x :: w <= x < v ==> !Follows(env, status, x)
  }

  lemma NoneBefore(env: Env, w: int, x: int, status: int -> bool)
    requires Pacemaker.Seated(env) && w <= x < Pacemaker.Settle(w, env.id, env.metadata.n, status)
    ensures !Follows(env, status, x)
  {
    Pacemaker.SettleIsLeast(w, env.id, env.metadata.n, status);
    assert !status(x);
  }

  lemma SettlesThere(env: Env, w: int, status: int -> bool)
    requires Pacemaker.Seated(env)
    ensures Follows(env, status, Pacemaker.Settle(w, env.id, env.metadata.n, status))
  {
    Pacemaker.SettleIsLeast(w, env.id, env.metadata.n, status);
  }

  lemma SettlesFirst(env: Env, w: int, status: int -> bool)
    requires Pacemaker.Seated(env)
    ensures FirstFrom(env, w, Pacemaker.Settle(w, env.id, env.metadata.n, status), status)
  {
    SettlesThere(env, w, status);
    forall x | w <= x < Pacemaker.Settle(w, env.id, env.metadata.n, status)
      ensures !Follows(env, status, x)
    {
      NoneBefore(env, w, x, status);
    }
  }

  /** Which view a proposal of view k is routed for by a pacemaker that is then at least in view w: k itself if the
      leader after w will do, and otherwise the first view after w of which that holds. */
  lemma RoutedViewIs(env: Env, p: Pacemaker.PM, k: int, w: int, status: int -> bool)
    requires Pacemaker.Seated(env) && w == if p.curView > k then p.curView else k
    ensures var v := Pacemaker.RoutedView(env, p, k, status);
            if Follows(env, status, w) then v == k
            else v > w && FirstFrom(env, w, v, status)
  {
    SettlesFirst(env, w, status);
  }

  /** The pacemaker ends in the first view from w on whose next leader will do, and if it sends the vote at all, it has
      done so once, and once more for every leader it skipped. */
  lemma OneCopyPerView(env: Env, p: Pacemaker.PM, k: int, w: int, vote: Vote, status: int -> bool)
    requires Pacemaker.Seated(env) && w == if p.curView > k then p.curView else k
    ensures var t := Pacemaker.OnReceiveProposal(env, p, k, vote, status);
            && FirstFrom(env, w, t.curView, status)
            && (t.sent == p.sent || |t.sent| == |p.sent| + t.curView - w + 1)
  {
    var n := env.metadata.n;
    var v, m := Pacemaker.RoutedView(env, p, k, status), Pacemaker.Repeats(env, p, k, status);
    var p1 := p.(curView := Pacemaker.Settle(Pacemaker.Max(p.curView, k), env.id, n, status));
    SettlesFirst(env, w, status);
    PM.PassingKeepsViews(env, p1, v, vote, m);
    if Pacemaker.GetLeader(n, v) == env.id {
      PassedInside(env, p1, v, vote, m);
    } else {
      PM.PassedToOther(env, p1, v, vote, m);
      CopiesAre(Pacemaker.VoteTo(Pacemaker.GetLeader(n, v), vote), m);
    }
  }

  /** For a proposal that is not behind the replica's view, the vote reaches a replica that admits it if and only if
      the next leader was reported connected: after a leader is skipped the vote still carries the old view. */
  lemma VoteSurvivesIff(u: Setup, r: ReplicaId, p: Pacemaker.PM, k: nat, hash: Hash, vote: Vote, status: int -> bool, i: nat)
    requires 0 <= r < u.metadata.n && r in u.replicas && 0 <= p.curView <= k && hash != [] && IsVote(vote, k, r, hash)
    requires var t := Pacemaker.OnReceiveProposal(EnvOf(u, r), p, k, vote, status); |p.sent| <= i < |t.sent|
    ensures var m := Pacemaker.OnReceiveProposal(EnvOf(u, r), p, k, vote, status).sent[i];
            && m.VoteTo? && m.vote == vote && 0 <= m.to < u.metadata.n && m.to != r
            && (Admits(EnvOf(u, m.to), r, Wire(m.vote)) <==> status(k))
            && (status(k) ==> m.to == (k + 1) % u.metadata.n)
  {
    var n, v := u.metadata.n, Pacemaker.RoutedView(EnvOf(u, r), p, k, status);
    RoutedVoteAdmittedIff(u, r, p, k, hash, vote, status);
    Pacemaker.SettleIsLeast(k, r, n, status);
    if v > k {
      DivUnique(v - k, n, 0, v - k);
    }
  }

  /** Four replicas, and replica 1, whose turn is next, is down: replica 3 sends its vote to replica 2, which drops it. */
  lemma SkippedLeaderLosesVote(digest: Bytes -> Hash)
    ensures var u := Setup(ConfigMetadata(4, 1), {0, 1, 2, 3}, {}, digest);
            var vote := Vote(0, 3, [7], PartCert(3, Signature(3, [7])));
            var t := Pacemaker.OnReceiveProposal(EnvOf(u, 3), Pacemaker.Initially(EnvOf(u, 3)), 0, vote, v => v != 0);
            && t.sent != [] && t.sent[0] == Pacemaker.VoteTo(2, vote) && !Admits(EnvOf(u, 2), 3, Wire(vote))
  {
    var u := Setup(ConfigMetadata(4, 1), {0, 1, 2, 3}, {}, digest);
    var vote := Vote(0, 3, [7], PartCert(3, Signature(3, [7])));
    var p, status := Pacemaker.Initially(EnvOf(u, 3)), v => v != 0;
    Pacemaker.SettleIsLeast(0, 3, 4, status);
    RoutedVoteAdmittedIff(u, 3, p, 0, [7], vote, status);
    assert Pacemaker.RoutedView(EnvOf(u, 3), p, 0, status) == 1;
  }
}
