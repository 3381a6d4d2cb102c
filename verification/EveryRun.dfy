/** What holds in every run, under either vote rule, with any number of faulty replicas and whatever
    blocks the replicas have or lack. */
module EveryRun {
  import opened Types
  import opened Replica
  import opened BlockTree
  import opened Heights
  import opened SafeVotes
  import opened World
  import opened WorldSteps
  import opened System

  /** The tree is grounded, and every replica's store and certificates fit it. */
  predicate Tidy(u: Setup, s: System) {
    && s.cores.Keys == Honest(u) && Grounded(s.tree, G(u))
    && forall r :: r in s.cores ==> Placed(s.tree, G(u), s.cores[r])
  }

  lemma InitIsTidy(u: Setup)
    ensures Tidy(u, Init(u))
  {
    var s := Init(u);
    assert LinkedAt(s.tree, G(u), G(u)) && BuiltAt(s.tree, G(u), G(u));
    forall r | r in s.cores
      ensures Placed(s.tree, G(u), s.cores[r])
    {
      assert FiledAt(s.tree, s.cores[r], G(u));
    }
  }

  lemma BornFits(u: Setup, s: System, a: Action)
    requires Tidy(u, s) && Enabled(u, s, a) && Born(u, s, a).Some?
    ensures var b := Born(u, s, a).value; FitsAt(s.tree, G(u), b.selfQc.blockHash, NodeOf(b))
  {
    if a.Propose? {
      var c := s.cores[a.r];
      assert FiledAt(s.tree, c, c.genericQC.blockHash);
      assert Walk(s.tree, c.genericQC.blockHash, 0) == c.genericQC.blockHash;
    }
  }

  lemma GrownIsGrounded(u: Setup, s: System, a: Action)
    requires Tidy(u, s) && Enabled(u, s, a)
    ensures Grounded(Grown(u, s, a), G(u)) && Subtree(s.tree, Grown(u, s, a))
  {
    if Born(u, s, a).Some? {
      BornFits(u, s, a);
      GroundedGrows(s.tree, G(u), Born(u, s, a).value.selfQc.blockHash, NodeOf(Born(u, s, a).value));
    }
  }

  lemma HandleOrders(u: Setup, rule: VoteRule, s: System, a: Action, t: Tree)
    requires Tidy(u, s) && Enabled(u, s, a) && !a.Appear? && t == Grown(u, s, a)
    ensures Placed(t, G(u), Handle(u, rule, s, a)) && Rises(t, s.cores[a.r], Handle(u, rule, s, a))
  {
    var env, c := EnvOf(u, a.r), s.cores[a.r];
    GrownIsGrounded(u, s, a);
    PlacedGrows(s.tree, t, G(u), c);
    match a
    case Propose(_, curView, _, _) =>
      if LeafOf(u, s, a).Some? {
        BornFits(u, s, a);
        ProposeOrders(t, G(u), env, c, curView, LeafOf(u, s, a).value);
      }
    case Deliver(_, prop) =>
      assert LinkedAt(t, G(u), c.genericQC.blockHash);
      ReceiveOrders(t, G(u), env, rule, c, prop);
    case CastVote(_, vote) => VoteOrders(t, G(u), env, c, vote);
    case ReceiveQC(_, qc) =>
      assert FiledAt(t, c, qc.blockHash);
      HighestOrders(t, G(u), env, c, c.blockCache[qc.blockHash], qc);
  }

  // ---------------------------------------------------------------------------
  // Nothing is taken back

  lemma UpdateNotifies(env: Env, c: Core, block: Block)
    ensures c.events <= Update(env, c, block).core.events
  {
  }

  lemma VoteNotifies(env: Env, c: Core, vote: Vote)
    ensures c.events <= OnProposalVote(env, c, vote).core.events
  {
  }

  /** A handler only adds events and ballots. */
  lemma HandlerAdds(u: Setup, rule: VoteRule, s: System, a: Action)
    requires !a.Appear? && a.r in s.cores
    ensures s.cores[a.r].events <= Handle(u, rule, s, a).events
    ensures s.cores[a.r].signed <= Handle(u, rule, s, a).signed
  {
    var env, c := EnvOf(u, a.r), s.cores[a.r];
    match a
    case Propose(_, curView, cmds, timestamp) =>
      if LeafOf(u, s, a).Some? { LeafNotifies(env, c, curView, LeafOf(u, s, a).value); }
    case Deliver(_, prop) => UpdateNotifies(env, StoreBlock(c, prop.block), prop.block);
    case CastVote(_, vote) => VoteNotifies(env, c, vote);
    case ReceiveQC(_, _) =>
  }

  lemma SelfVoteNotifies(env: Env, c: Core, curView: int, block: Block)
    requires block.selfQc.blockHash in c.blockCache
    ensures c.events <= SelfVote(env, c, curView, block).core.events
    ensures c.signed <= SelfVote(env, c, curView, block).core.signed
  {
    var voted := Sign(c.(voteHeight := block.height), block.selfQc.blockHash);
    VoteNotifies(env, voted, VoteProposal(env, curView, block.selfQc.blockHash));
  }

  lemma LeafNotifies(env: Env, c: Core, curView: int, block: Block)
    ensures c.events <= ProposeLeaf(env, c, curView, block).core.events
    ensures c.signed <= ProposeLeaf(env, c, curView, block).core.signed
  {
    var o := Update(env, StoreBlock(c, block), block);
    UpdateNotifies(env, StoreBlock(c, block), block);
    if o.ok { SelfVoteNotifies(env, o.core, curView, block); }
  }

  /** `t` is a later state of the run that went through `s`. */
  predicate Later(s: System, t: System) {
    && Grows(WorldOf(s), WorldOf(t)) && s.cores.Keys == t.cores.Keys
    && forall r :: r in s.cores ==>
         s.cores[r].events <= t.cores[r].events && Rises(t.tree, s.cores[r], t.cores[r])
  }

  /** One replica has moved to `d`, the tree has grown to `t`, and the rest is as it was. */
  lemma OneCoreMoves(u: Setup, s: System, t: Tree, q: ReplicaId, d: Core)
    requires Tidy(u, s) && Grounded(t, G(u)) && Subtree(s.tree, t)
    requires q in s.cores && Placed(t, G(u), d) && Rises(t, s.cores[q], d)
    requires s.cores[q].events <= d.events && s.cores[q].signed <= d.signed
    ensures var x := System(t, s.cores[q := d]); Tidy(u, x) && Later(s, x)
  {
    forall r | r in s.cores
      ensures Placed(t, G(u), s.cores[r])
    {
      PlacedGrows(s.tree, t, G(u), s.cores[r]);
    }
  }

  lemma TreeMoves(u: Setup, s: System, t: Tree)
    requires Tidy(u, s) && Grounded(t, G(u)) && Subtree(s.tree, t)
    ensures Tidy(u, s.(tree := t)) && Later(s, s.(tree := t))
  {
    forall r | r in s.cores
      ensures Placed(t, G(u), s.cores[r])
    {
      PlacedGrows(s.tree, t, G(u), s.cores[r]);
    }
  }

  lemma StepIsTidy(u: Setup, rule: VoteRule, s: System, a: Action)
    requires Tidy(u, s) && Enabled(u, s, a)
    ensures Tidy(u, Apply(u, rule, s, a)) && Later(s, Apply(u, rule, s, a))
  {
    var t := Grown(u, s, a);
    GrownIsGrounded(u, s, a);
    if a.Appear? {
      TreeMoves(u, s, t);
    } else {
      HandleOrders(u, rule, s, a, t);
      HandlerAdds(u, rule, s, a);
      OneCoreMoves(u, s, t, a.r, Handle(u, rule, s, a));
    }
  }

  lemma LaterTransitive(u: Setup, s: System, t: System, x: System)
    requires Tidy(u, s) && Tidy(u, t) && Later(s, t) && Later(t, x)
    ensures Later(s, x)
  {
    forall r | r in s.cores
      ensures s.cores[r].events <= x.cores[r].events && Rises(x.tree, s.cores[r], x.cores[r])
    {
      assert Ordered(s.tree, G(u), s.cores[r]) && Ordered(t.tree, G(u), t.cores[r]);
    }
  }

  lemma {:induction false} RunIsTidy(u: Setup, rule: VoteRule, run: seq<Action>)
    requires Exec(u, rule, run).Some?
    ensures Tidy(u, Exec(u, rule, run).value)
  {
    if run == [] {
      InitIsTidy(u);
    } else {
      RunIsTidy(u, rule, run[..|run| - 1]);
      StepIsTidy(u, rule, Exec(u, rule, run[..|run| - 1]).value, run[|run| - 1]);
    }
  }

  /** Along every run, what was notified stays notified, the tree and the ballots only grow, and the
      heights of genericQC and lockedQC never decrease. */
  lemma {:induction false} RunIsMonotone(u: Setup, rule: VoteRule, run: seq<Action>, i: nat)
    requires Exec(u, rule, run).Some? && i <= |run|
    ensures Exec(u, rule, run[..i]).Some? && Later(Exec(u, rule, run[..i]).value, Exec(u, rule, run).value)
    decreases |run|
  {
    if i == |run| {
      assert run[..i] == run;
    } else {
      var before := run[..|run| - 1];
      assert run[..i] == before[..i];
      RunIsTidy(u, rule, before);
      RunIsMonotone(u, rule, before, i);
      RunIsTidy(u, rule, run[..i]);
      StepIsTidy(u, rule, Exec(u, rule, before).value, run[|run| - 1]);
      LaterTransitive(u, Exec(u, rule, run[..i]).value, Exec(u, rule, before).value, Exec(u, rule, run).value);
    }
  }

  /** In every state of every run each honest replica has exec <= locked <= generic in height, with
      locked < generic unless the lock is still genesis. */
  lemma CertificateOrder(u: Setup, rule: VoteRule, run: seq<Action>, r: ReplicaId)
    requires Exec(u, rule, run).Some? && r in Honest(u)
    ensures var s := Exec(u, rule, run).value;
            && r in s.cores
            && HeightOf(s.tree, s.cores[r].execQC) <= HeightOf(s.tree, s.cores[r].lockedQC)
            && HeightOf(s.tree, s.cores[r].lockedQC) <= HeightOf(s.tree, s.cores[r].genericQC)
            && (HeightOf(s.tree, s.cores[r].lockedQC) < HeightOf(s.tree, s.cores[r].genericQC) ||
                s.cores[r].lockedQC.blockHash == G(u))
  {
    RunIsTidy(u, rule, run);
    var s := Exec(u, rule, run).value;
    assert Placed(s.tree, G(u), s.cores[r]) && LinkedAt(s.tree, G(u), s.cores[r].genericQC.blockHash);
  }

  /** In every reachable state the vote a leader casts for its own proposal, which is not checked
      against the lock, passes the vote rule against the lock it holds when it signs. */
  lemma LeaderVoteIsSafe(u: Setup, rule: VoteRule, run: seq<Action>, a: Action)
    requires Exec(u, rule, run).Some? && a.Propose?
    requires var s := Exec(u, rule, run).value; Enabled(u, s, a) && LeafOf(u, s, a).Some?
    ensures var s := Exec(u, rule, run).value;
            var block, c := LeafOf(u, s, a).value, s.cores[a.r];
            var o := Update(EnvOf(u, a.r), StoreBlock(c, block), block);
            SafeNode(Grown(u, s, a), block.selfQc.blockHash, o.core.lockedQC.blockHash)
  {
    var s := Exec(u, rule, run).value;
    var block, c, env, t := LeafOf(u, s, a).value, s.cores[a.r], EnvOf(u, a.r), Grown(u, s, a);
    RunIsTidy(u, rule, run);
    BornFits(u, s, a);
    GrownIsGrounded(u, s, a);
    PlacedGrows(s.tree, t, G(u), c);
    AbsorbOrders(t, G(u), env, c, block);
    GenericUnmoved(env, StoreBlock(c, block), block);
    SelfVoteIsSafe(t, G(u), Update(env, StoreBlock(c, block), block).core, block.selfQc.blockHash);
  }
}
