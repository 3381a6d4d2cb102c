/** The runs in which every vote obeys the vote rule and leaves the replica locked where the block
    calls for: they are the runs in which ballots are lawful, and they keep the invariant that
    agreement rests on. */
module OrderlyRuns {
  import opened Types
  import opened Entity
  import opened Replica
  import opened BlockTree
  import opened Heights
  import opened SafeVotes
  import opened World
  import opened WorldSteps
  import opened ReplicaInv
  import opened HandlerSafety
  import opened System
  import opened EveryRun

  /** If the call casts a vote, the block was signed before, or the vote rule accepts it and the justify of its
      justify is stored or the lock is high enough already. All of it can be told before the call. */
  predicate OrderlyStep(u: Setup, rule: VoteRule, s: System, a: Action)
    requires Acts(s, a)
  {
    match a
    case Appear(_) => true
    case Propose(r, _, _, _) =>
      LeafOf(u, s, a).Some? ==> OrderlyLeaf(Grown(u, s, a), EnvOf(u, r), s.cores[r], LeafOf(u, s, a).value)
    case Deliver(r, prop) => OrderlyVote(Grown(u, s, a), EnvOf(u, r), rule, s.cores[r], prop.block)
    case CastVote(_, _) => true
    case ReceiveQC(_, _) => true
  }

  predicate Orderly(u: Setup, rule: VoteRule, run: seq<Action>) {
    run == [] ||
    var before, a := run[..|run| - 1], run[|run| - 1];
    && Orderly(u, rule, before)
    && (Exec(u, rule, before).Some? && Acts(Exec(u, rule, before).value, a) ==>
          OrderlyStep(u, rule, Exec(u, rule, before).value, a))
  }

  lemma OrderlyAppend(u: Setup, rule: VoteRule, run: seq<Action>, s: System, a: Action)
    requires Exec(u, rule, run) == Some(s) && Orderly(u, rule, run) && Enabled(u, s, a) && OrderlyStep(u, rule, s, a)
    ensures Exec(u, rule, run + [a]) == Some(Apply(u, rule, s, a)) && Orderly(u, rule, run + [a])
  {
    ExecAppend(u, rule, run, s, a);
    assert (run + [a])[..|run + [a]| - 1] == run;
  }

  /** An accepted block whose chain of certificates is at hand is delivered in order. */
  lemma DeliverInOrder(u: Setup, rule: VoteRule, run: seq<Action>, s: System, r: ReplicaId, prop: Proposal)
    requires Exec(u, rule, run) == Some(s) && Orderly(u, rule, run) && r in s.cores && ValidBlock(u, s, prop.block)
    requires Accepts(EnvOf(u, r), s.cores[r], prop.block) && KnowsChain(StoreBlock(s.cores[r], prop.block), prop.block)
    ensures var d := OnReceiveProposal(EnvOf(u, r), rule, s.cores[r], prop).core;
            var tree := s.tree[prop.block.selfQc.blockHash := NodeOf(prop.block)];
            Exec(u, rule, run + [Deliver(r, prop)]) == Some(System(tree, s.cores[r := d]))
    ensures Orderly(u, rule, run + [Deliver(r, prop)])
  {
    OrderlyAppend(u, rule, run, s, Deliver(r, prop));
  }

  /** A leaf whose chain of certificates is at hand is proposed in order. */
  lemma ProposeInOrder(u: Setup, rule: VoteRule, run: seq<Action>, s: System, a: Action, leaf: Block)
    requires Exec(u, rule, run) == Some(s) && Orderly(u, rule, run) && a.Propose? && a.r in s.cores
    requires LeafOf(u, s, a) == Some(leaf) && Fits(s, leaf) && KnowsChain(StoreBlock(s.cores[a.r], leaf), leaf)
    ensures var d := ProposeLeaf(EnvOf(u, a.r), s.cores[a.r], a.curView, leaf).core;
            var tree := s.tree[leaf.selfQc.blockHash := NodeOf(leaf)];
            Exec(u, rule, run + [a]) == Some(System(tree, s.cores[a.r := d]))
    ensures Orderly(u, rule, run + [a])
  {
    OrderlyAppend(u, rule, run, s, a);
  }

  /** Counting a vote is always in order. */
  lemma CastInOrder(u: Setup, rule: VoteRule, run: seq<Action>, s: System, r: ReplicaId, vote: Vote)
    requires Exec(u, rule, run) == Some(s) && Orderly(u, rule, run) && r in s.cores && AuthenticVote(u, WorldOf(s), vote)
    ensures var d := OnProposalVote(EnvOf(u, r), s.cores[r], vote).core;
            Exec(u, rule, run + [CastVote(r, vote)]) == Some(System(s.tree, s.cores[r := d]))
    ensures Orderly(u, rule, run + [CastVote(r, vote)])
  {
    OrderlyAppend(u, rule, run, s, CastVote(r, vote));
  }

  // ---------------------------------------------------------------------------
  // The invariant of every orderly run

  ghost predicate SystemInv(u: Setup, s: System) {
    && s.cores.Keys == Honest(u)
    && WorldInv(u, WorldOf(s))
    && forall r :: r in s.cores ==> CoreInv(u, WorldOf(s), s.cores[r])
  }

  lemma InitCore(u: Setup, r: ReplicaId)
    requires Sound(u)
    ensures CoreInv(u, WorldOf(Init(u)), Initial(EnvOf(u, r)))
  {
    var w, c := WorldOf(Init(u)), Initial(EnvOf(u, r));
    assert GetBlockHash(u.digest, Genesis(u.digest)) == G(u) by {
      assert Preimage(Genesis(u.digest)) == Preimage(Block([], [], 0, 0, 0, None, QuorumCert(-1, [], map[])));
    }
    assert StoredAt(u, w, c, G(u));
  }

  lemma InitInv(u: Setup)
    requires Sound(u)
    ensures SystemInv(u, Init(u))
  {
    var s := Init(u);
    InitIsTidy(u);
    forall r | r in s.cores
      ensures CoreInv(u, WorldOf(s), s.cores[r])
    {
      InitCore(u, r);
    }
  }

  lemma InvIsTidy(u: Setup, s: System)
    requires SystemInv(u, s)
    ensures Tidy(u, s)
  {
    forall r | r in s.cores
      ensures Placed(s.tree, G(u), s.cores[r])
    {
      CoreIsPlaced(u, WorldOf(s), s.cores[r]);
    }
  }

  lemma BornIsValid(u: Setup, s: System, a: Action)
    requires Sound(u) && SystemInv(u, s) && Enabled(u, s, a) && Born(u, s, a).Some?
    ensures var b := Born(u, s, a).value; ValidNode(u, WorldOf(s), b.selfQc.blockHash, NodeOf(b))
  {
    var w, b := WorldOf(s), Born(u, s, a).value;
    InvIsTidy(u, s);
    BornFits(u, s, a);
    if a.Propose? {
      assert CoreInv(u, w, s.cores[a.r]);
    } else if b.justify.value.blockHash != G(u) {
      VerifiedIsCertified(u, w, 0, b.justify.value);
    }
  }

  /** The world between: the new block is known, nobody has acted on it yet. */
  function Between(u: Setup, s: System, a: Action): World
    requires Acts(s, a)
  {
    WorldOf(s).(tree := Grown(u, s, a))
  }

  lemma BetweenInv(u: Setup, s: System, a: Action)
    requires Sound(u) && SystemInv(u, s) && Enabled(u, s, a)
    ensures Grows(WorldOf(s), Between(u, s, a)) && WorldInv(u, Between(u, s, a))
  {
    if Born(u, s, a).Some? {
      var b := Born(u, s, a).value;
      BornIsValid(u, s, a);
      AddBlock(u, WorldOf(s), b.selfQc.blockHash, NodeOf(b));
    }
  }

  /** What the handler finds: its replica's invariant in the world with the new block. */
  lemma HandlerStart(u: Setup, s: System, a: Action, w: World)
    requires Sound(u) && SystemInv(u, s) && Enabled(u, s, a) && !a.Appear? && w == Between(u, s, a)
    ensures WorldInv(u, w) && Grows(WorldOf(s), w) && CoreInv(u, w, s.cores[a.r])
    ensures a.r in w.ballots && w.ballots[a.r] == s.cores[a.r].signed
  {
    BetweenInv(u, s, a);
    CoreGrows(u, WorldOf(s), w, s.cores[a.r]);
  }

  /** The handler's replica keeps its invariant. */
  lemma HandleKeeps(u: Setup, rule: VoteRule, s: System, a: Action, w: World)
    requires Sound(u) && SystemInv(u, s) && Enabled(u, s, a) && !a.Appear? && OrderlyStep(u, rule, s, a)
    requires w == Between(u, s, a)
    ensures var d := Handle(u, rule, s, a);
            var v := WorldAfter(w, a.r, d);
            Grows(w, v) && WorldInv(u, v) && CoreInv(u, v, d)
  {
    HandlerStart(u, s, a, w);
    match a
    case Propose(_, _, _, _) => LeafKeeps(u, s, a, w);
    case Deliver(_, _) => DeliveryKeeps(u, rule, s, a, w);
    case CastVote(_, _) => CastKeeps(u, rule, s, a, w);
    case ReceiveQC(_, _) => QcKeeps(u, rule, s, a, w);
  }

  lemma DeliveryKeeps(u: Setup, rule: VoteRule, s: System, a: Action, w: World)
    requires Sound(u) && Enabled(u, s, a) && a.Deliver? && w == Between(u, s, a) && Grows(WorldOf(s), w)
    requires WorldInv(u, w) && CoreInv(u, w, s.cores[a.r]) && a.r in w.ballots && w.ballots[a.r] == s.cores[a.r].signed
    requires OrderlyVote(w.tree, EnvOf(u, a.r), rule, s.cores[a.r], a.prop.block)
    ensures var d := Handle(u, rule, s, a);
            var v := WorldAfter(w, a.r, d);
            Grows(w, v) && WorldInv(u, v) && CoreInv(u, v, d)
  {
    DeliverIsAdmissible(u, s, a, w);
    ReceiveKeeps(u, w, a.r, rule, s.cores[a.r], a.prop);
  }

  lemma CastKeeps(u: Setup, rule: VoteRule, s: System, a: Action, w: World)
    requires Sound(u) && Enabled(u, s, a) && a.CastVote? && w == Between(u, s, a)
    requires WorldInv(u, w) && CoreInv(u, w, s.cores[a.r]) && a.r in w.ballots && w.ballots[a.r] == s.cores[a.r].signed
    ensures var d := Handle(u, rule, s, a); WorldAfter(w, a.r, d) == w && CoreInv(u, w, d)
  {
    VoteKeeps(u, w, a.r, s.cores[a.r], a.vote);
  }

  lemma QcKeeps(u: Setup, rule: VoteRule, s: System, a: Action, w: World)
    requires Sound(u) && Enabled(u, s, a) && a.ReceiveQC? && w == Between(u, s, a)
    requires WorldInv(u, w) && CoreInv(u, w, s.cores[a.r]) && a.r in w.ballots && w.ballots[a.r] == s.cores[a.r].signed
    ensures var d := Handle(u, rule, s, a); WorldAfter(w, a.r, d) == w && CoreInv(u, w, d)
  {
    ReceivedQcKeeps(u, w, a.r, s.cores[a.r], a.qc);
  }

  lemma LeafStands(u: Setup, s: System, a: Action, w: World)
    requires Sound(u) && SystemInv(u, s) && Enabled(u, s, a) && a.Propose? && w == Between(u, s, a)
    requires LeafOf(u, s, a).Some?
    ensures var h := LeafOf(u, s, a).value.selfQc.blockHash;
            h in w.tree && h != G(u) && w.tree[h] == NodeOf(LeafOf(u, s, a).value)
  {
    BornIsValid(u, s, a);
  }

  lemma LeafKeeps(u: Setup, s: System, a: Action, w: World)
    requires Sound(u) && SystemInv(u, s) && Enabled(u, s, a) && a.Propose? && w == Between(u, s, a)
    requires WorldInv(u, w) && CoreInv(u, w, s.cores[a.r]) && a.r in w.ballots && w.ballots[a.r] == s.cores[a.r].signed
    requires LeafOf(u, s, a).Some? ==> OrderlyLeaf(w.tree, EnvOf(u, a.r), s.cores[a.r], LeafOf(u, s, a).value)
    ensures var d := Handle(u, Meant, s, a);
            var v := WorldAfter(w, a.r, d);
            Grows(w, v) && WorldInv(u, v) && CoreInv(u, v, d)
  {
    if LeafOf(u, s, a).Some? {
      LeafStands(u, s, a, w);
      ProposeKeeps(u, w, a.r, s.cores[a.r], a.curView, a.cmds, a.timestamp);
    } else {
      assert WorldAfter(w, a.r, Handle(u, Meant, s, a)) == w;
    }
  }

  lemma ReceivedQcKeeps(u: Setup, w: World, r: ReplicaId, c: Core, qc: QuorumCert)
    requires Sound(u) && CoreInv(u, w, c) && Authentic(u, w, qc) && qc.blockHash in c.blockCache
    ensures var d := UpdateHighestQC(EnvOf(u, r), c, c.blockCache[qc.blockHash], qc);
            CoreInv(u, w, d) && d.signed == c.signed
  {
    assert StoredAt(u, w, c, qc.blockHash);
    if QcVerifies(EnvOf(u, r), qc) {
      VerifiedIsCertified(u, w, r, qc);
    }
    HighestKeeps(u, w, EnvOf(u, r), c, c.blockCache[qc.blockHash], qc);
  }

  lemma DeliverIsAdmissible(u: Setup, s: System, a: Action, w: World)
    requires a.Deliver? && Enabled(u, s, a) && w == Between(u, s, a)
    requires Grows(WorldOf(s), w) && WorldInv(u, w) && CoreInv(u, w, s.cores[a.r])
    ensures Admissible(w.tree, G(u), EnvOf(u, a.r), s.cores[a.r], a.prop.block)
    ensures GetBlockHash(u.digest, a.prop.block) == a.prop.block.selfQc.blockHash && Authentic(u, w, a.prop.block.selfQc)
  {
    AuthenticGrows(u, WorldOf(s), w, a.prop.block.selfQc);
    assert LinkedAt(w.tree, G(u), s.cores[a.r].genericQC.blockHash);
  }

  lemma GrowsTransitive(w: World, v: World, x: World)
    requires Grows(w, v) && Grows(v, x)
    ensures Grows(w, x)
  {
  }

  /** The replicas that did not act keep their invariants in the grown world. */
  lemma OthersKeep(u: Setup, s: System, t: System, q: ReplicaId)
    requires SystemInv(u, s) && Grows(WorldOf(s), WorldOf(t)) && WorldInv(u, WorldOf(t))
    requires q in s.cores && t.cores.Keys == s.cores.Keys && CoreInv(u, WorldOf(t), t.cores[q])
    requires forall r :: r in s.cores && r != q ==> t.cores[r] == s.cores[r]
    ensures SystemInv(u, t)
  {
    forall r | r in t.cores
      ensures CoreInv(u, WorldOf(t), t.cores[r])
    {
      if r != q {
        CoreGrows(u, WorldOf(s), WorldOf(t), s.cores[r]);
      }
    }
  }

  lemma AppearKeeps(u: Setup, s: System, a: Action)
    requires Sound(u) && SystemInv(u, s) && Enabled(u, s, a) && a.Appear?
    ensures SystemInv(u, s.(tree := Grown(u, s, a)))
  {
    var t := s.(tree := Grown(u, s, a));
    BetweenInv(u, s, a);
    assert WorldOf(t) == Between(u, s, a);
    forall r | r in t.cores
      ensures CoreInv(u, WorldOf(t), t.cores[r])
    {
      CoreGrows(u, WorldOf(s), WorldOf(t), s.cores[r]);
    }
  }

  /** One replica has moved to `d` in the world `w`, which has its new ballots in `v`. */
  lemma WorldOfAct(s: System, r: ReplicaId, w: World, d: Core)
    requires r in s.cores && w.ballots == WorldOf(s).ballots
    ensures WorldOf(System(w.tree, s.cores[r := d])) == WorldAfter(w, r, d)
  {
    assert WorldOf(System(w.tree, s.cores[r := d])).ballots == w.ballots[r := d.signed];
  }

  lemma ActKeeps(u: Setup, s: System, r: ReplicaId, w: World, d: Core, v: World)
    requires SystemInv(u, s) && r in s.cores && Grows(WorldOf(s), w) && w.ballots == WorldOf(s).ballots
    requires v == WorldAfter(w, r, d) && Grows(w, v) && WorldInv(u, v) && CoreInv(u, v, d)
    ensures SystemInv(u, System(w.tree, s.cores[r := d]))
  {
    var t := System(w.tree, s.cores[r := d]);
    WorldOfAct(s, r, w, d);
    GrowsTransitive(WorldOf(s), w, v);
    OthersKeep(u, s, t, r);
  }

  lemma ApplyKeeps(u: Setup, rule: VoteRule, s: System, a: Action)
    requires Sound(u) && SystemInv(u, s) && Enabled(u, s, a) && OrderlyStep(u, rule, s, a)
    ensures SystemInv(u, Apply(u, rule, s, a))
  {
    if a.Appear? {
      AppearKeeps(u, s, a);
    } else {
      var w, d := Between(u, s, a), Handle(u, rule, s, a);
      BetweenInv(u, s, a);
      HandleKeeps(u, rule, s, a, w);
      ActKeeps(u, s, a.r, w, d, WorldAfter(w, a.r, d));
    }
  }

  lemma {:induction false} RunInv(u: Setup, rule: VoteRule, run: seq<Action>)
    requires Sound(u) && Exec(u, rule, run).Some? && Orderly(u, rule, run)
    ensures SystemInv(u, Exec(u, rule, run).value)
  {
    if run == [] {
      InitInv(u);
    } else {
      RunInv(u, rule, run[..|run| - 1]);
      ApplyKeeps(u, rule, Exec(u, rule, run[..|run| - 1]).value, run[|run| - 1]);
    }
  }

  // ---------------------------------------------------------------------------
  // Orderly runs are exactly those with lawful ballots

  /** Every honest replica's ballots rise, obey the vote rule, and were cast under a high enough lock. */
  predicate Lawful(u: Setup, s: System) {
    forall r :: r in s.cores ==> BallotsInv(u, WorldOf(s), s.cores[r].signed)
  }

  lemma InvIsLawful(u: Setup, s: System)
    requires SystemInv(u, s)
    ensures Lawful(u, s)
  {
    forall r | r in s.cores
      ensures BallotsInv(u, WorldOf(s), s.cores[r].signed)
    {
      assert WorldOf(s).ballots[r] == s.cores[r].signed;
    }
  }

  /** A ballot that is not above the last one, not safe, or cast under too low a lock, is not lawful. */
  lemma UnlawfulBallot(u: Setup, w: World, v: World, c: Core, h: Hash)
    requires CoreInv(u, w, c) && v.tree == w.tree && h in w.tree && h != G(u) && w.tree[h].height > 0
    requires w.tree[h].height <= c.voteHeight || !SafeNode(w.tree, h, c.lockedQC.blockHash) ||
             LockBound(w.tree, h) > HeightOf(w.tree, c.lockedQC)
    ensures !BallotsInv(u, v, c.signed + [Ballot(h, c.lockedQC.blockHash)])
  {
    var bs := c.signed + [Ballot(h, c.lockedQC.blockHash)];
    assert bs[|c.signed|] == Ballot(h, c.lockedQC.blockHash);
    if w.tree[h].height <= c.voteHeight {
      assert bs[|c.signed| - 1] == c.signed[|c.signed| - 1];
    }
  }

  /** The absorbed block is not safe to sign, or not yet, and is signed for the first time. */
  lemma StraySign(u: Setup, rule: VoteRule, w: World, v: World, r: ReplicaId, c: Core, prop: Proposal)
    requires TreeInv(u, w) && CoreInv(u, w, c) && v.tree == w.tree && Admissible(w.tree, G(u), EnvOf(u, r), c, prop.block)
    requires GetBlockHash(u.digest, prop.block) == prop.block.selfQc.blockHash && Authentic(u, w, prop.block.selfQc)
    requires !OrderlyVote(w.tree, EnvOf(u, r), rule, c, prop.block)
    ensures !BallotsInv(u, v, OnReceiveProposal(EnvOf(u, r), rule, c, prop).core.signed)
  {
    var env, h := EnvOf(u, r), prop.block.selfQc.blockHash;
    var o := Absorb(env, c, prop.block);
    AbsorbKeeps(u, w, env, c, prop.block);
    VoteOrNot(env, rule, c, prop, o);
    CoreIsPlaced(u, w, o.core);
    JudgeIsSafeNode(w.tree, G(u), o.core, prop.block);
    assert LinkedAt(w.tree, G(u), h);
    UnlawfulBallot(u, w, v, o.core, h);
  }

  lemma StrayDelivery(u: Setup, rule: VoteRule, s: System, a: Action)
    requires Sound(u) && SystemInv(u, s) && Enabled(u, s, a) && a.Deliver? && !OrderlyStep(u, rule, s, a)
    ensures !BallotsInv(u, WorldOf(Apply(u, rule, s, a)), Handle(u, rule, s, a).signed)
  {
    var w := Between(u, s, a);
    HandlerStart(u, s, a, w);
    DeliverIsAdmissible(u, s, a, w);
    StraySign(u, rule, w, WorldOf(Apply(u, rule, s, a)), a.r, s.cores[a.r], a.prop);
  }

  lemma StrayLeaf(u: Setup, rule: VoteRule, s: System, a: Action)
    requires Sound(u) && SystemInv(u, s) && Enabled(u, s, a) && a.Propose? && !OrderlyStep(u, rule, s, a)
    ensures !BallotsInv(u, WorldOf(Apply(u, rule, s, a)), Handle(u, rule, s, a).signed)
  {
    var env, c, w, block := EnvOf(u, a.r), s.cores[a.r], Between(u, s, a), LeafOf(u, s, a).value;
    var h := block.selfQc.blockHash;
    HandlerStart(u, s, a, w);
    LeafStands(u, s, a, w);
    LeafUpdateKeeps(u, w, env, c, block);
    assert LinkedAt(w.tree, G(u), h);
    LeafIsUnsigned(u, w, c, block);
    UnlawfulBallot(u, w, WorldOf(Apply(u, rule, s, a)), Update(env, StoreBlock(c, block), block).core, h);
  }

  lemma LeafIsUnsigned(u: Setup, w: World, c: Core, block: Block)
    requires VoteInv(w, c) && block.height > c.voteHeight
    requires block.selfQc.blockHash in w.tree && w.tree[block.selfQc.blockHash] == NodeOf(block)
    ensures !HasBallot(c, block.selfQc.blockHash)
  {
    if HasBallot(c, block.selfQc.blockHash) {
      SignedIsLow(w, c, block.selfQc.blockHash);
    }
  }

  lemma StepLawfulIff(u: Setup, rule: VoteRule, s: System, a: Action)
    requires Sound(u) && SystemInv(u, s) && Enabled(u, s, a)
    ensures Lawful(u, Apply(u, rule, s, a)) <==> OrderlyStep(u, rule, s, a)
  {
    var t := Apply(u, rule, s, a);
    if OrderlyStep(u, rule, s, a) {
      ApplyKeeps(u, rule, s, a);
      InvIsLawful(u, t);
    } else {
      if a.Deliver? { StrayDelivery(u, rule, s, a); } else { StrayLeaf(u, rule, s, a); }
      assert t.cores[a.r].signed == Handle(u, rule, s, a).signed;
    }
  }

  /** The ballots are lawful in the last state of the run and in every state before. */
  predicate AlwaysLawful(u: Setup, rule: VoteRule, run: seq<Action>)
    requires Exec(u, rule, run).Some?
  {
    Lawful(u, Exec(u, rule, run).value) && (run != [] ==> AlwaysLawful(u, rule, run[..|run| - 1]))
  }

  /** A run is orderly exactly if the ballots are lawful in each of its states. */
  lemma {:induction false} OrderlyIff(u: Setup, rule: VoteRule, run: seq<Action>)
    requires Sound(u) && Exec(u, rule, run).Some?
    ensures Orderly(u, rule, run) <==> AlwaysLawful(u, rule, run)
  {
    if run == [] {
      InitInv(u);
      InvIsLawful(u, Init(u));
    } else {
      var before := run[..|run| - 1];
      OrderlyIff(u, rule, before);
      if Orderly(u, rule, before) {
        RunInv(u, rule, before);
        StepLawfulIff(u, rule, Exec(u, rule, before).value, run[|run| - 1]);
      }
    }
  }
}
