/** What an honest replica keeps true of itself, and that its handlers keep it. */
module ReplicaInv {
  import opened Types
  import opened Entity
  import opened Replica
  import opened BlockTree
  import opened Heights
  import opened World
  import opened WorldSteps

  /** The block filed under `h` is the block of the tree, and no honest vote in its tally is forged. */
  predicate StoredAt(u: Setup, w: World, c: Core, h: Hash) {
    && FiledAt(w.tree, c, h)
    && GetBlockHash(u.digest, c.blockCache[h]) == h
    && Authentic(u, w, c.blockCache[h].selfQc)
  }

  predicate StoreInv(u: Setup, w: World, c: Core) {
    forall h {:trigger StoredAt(u, w, c, h)} :: h in c.blockCache ==> StoredAt(u, w, c, h)
  }

  predicate Backed(u: Setup, w: World, c: Core) {
    Certified(u, w, c.genericQC.blockHash) && Certified(u, w, c.lockedQC.blockHash)
  }

  /** No ballot is above voteHeight, the last one is at it, and the lock is what every ballot so far
      called for, or higher. */
  predicate VoteInv(w: World, c: Core) {
    && (forall i :: 0 <= i < |c.signed| ==>
          && c.signed[i].hash in w.tree
          && w.tree[c.signed[i].hash].height <= c.voteHeight
          && LockBound(w.tree, c.signed[i].hash) <= HeightOf(w.tree, c.lockedQC))
    && c.voteHeight == if c.signed == [] then 0 else w.tree[c.signed[|c.signed| - 1].hash].height
  }

  predicate ParkedInv(u: Setup, w: World, c: Core) {
    forall h, i :: h in c.voteSet && 0 <= i < |c.voteSet[h]| ==>
      c.voteSet[h][i].blockHash == h && AuthenticVote(u, w, c.voteSet[h][i])
  }

  /** `d` is at or below a committed block. */
  predicate Decision(u: Setup, w: World, b2: Hash, b1: Hash, b0: Hash, d: Hash) {
    Committed(u, w, b2, b1, b0) && Extends(w.tree, b0, d)
  }

  /** The block is the one its hash stands for. */
  predicate Proper(u: Setup, w: World, b: Block) {
    && b.selfQc.blockHash in w.tree && w.tree[b.selfQc.blockHash] == NodeOf(b)
    && GetBlockHash(u.digest, b) == b.selfQc.blockHash
  }

  ghost predicate Decidable(u: Setup, w: World, b: Block) {
    Proper(u, w, b) && exists b2, b1, b0 :: Decision(u, w, b2, b1, b0, b.selfQc.blockHash)
  }

  ghost predicate DecidedInv(u: Setup, w: World, c: Core) {
    forall i :: 0 <= i < |c.events| && c.events[i].DecideEvent? ==>
      Decidable(u, w, c.events[i].block)
  }

  ghost predicate CoreInv(u: Setup, w: World, c: Core) {
    && StoreInv(u, w, c) && Ordered(w.tree, G(u), c) && Backed(u, w, c)
    && VoteInv(w, c) && ParkedInv(u, w, c) && DecidedInv(u, w, c)
  }

  lemma CoreIsPlaced(u: Setup, w: World, c: Core)
    requires CoreInv(u, w, c)
    ensures Placed(w.tree, G(u), c)
  {
    forall h | h in c.blockCache
      ensures FiledAt(w.tree, c, h)
    {
      assert StoredAt(u, w, c, h);
    }
  }

  // ---------------------------------------------------------------------------
  // The invariant survives whatever the rest of the world does

  lemma DecidableGrows(u: Setup, w: World, v: World, b: Block)
    requires TreeInv(u, w) && Grows(w, v) && Decidable(u, w, b)
    ensures Decidable(u, v, b)
  {
    var d := b.selfQc.blockHash;
    var b2, b1, b0 :| Decision(u, w, b2, b1, b0, d);
    CertifiedGrows(u, w, v, b2);
    ExtendsGrows(w.tree, v.tree, G(u), b0, d);
    assert Decision(u, v, b2, b1, b0, d);
  }

  lemma StoreGrows(u: Setup, w: World, v: World, c: Core)
    requires Grows(w, v) && StoreInv(u, w, c)
    ensures StoreInv(u, v, c)
  {
    forall h | h in c.blockCache
      ensures StoredAt(u, v, c, h)
    {
      assert StoredAt(u, w, c, h);
      AuthenticGrows(u, w, v, c.blockCache[h].selfQc);
    }
  }

  lemma ParkedGrows(u: Setup, w: World, v: World, c: Core)
    requires Grows(w, v) && ParkedInv(u, w, c)
    ensures ParkedInv(u, v, c)
  {
    forall h, i | h in c.voteSet && 0 <= i < |c.voteSet[h]|
      ensures AuthenticVote(u, v, c.voteSet[h][i])
    {
      var x := c.voteSet[h][i];
      assert AuthenticVote(u, w, x);
      if x.voter in Honest(u) && SignatureVerifies(x.voter, x.cert.signature, x.blockHash) {
        SignedGrows(w, v, x.voter, x.blockHash);
      }
    }
  }

  lemma CoreGrows(u: Setup, w: World, v: World, c: Core)
    requires TreeInv(u, w) && Grows(w, v) && CoreInv(u, w, c)
    ensures CoreInv(u, v, c)
  {
    StoreGrows(u, w, v, c);
    ParkedGrows(u, w, v, c);
    CertifiedGrows(u, w, v, c.genericQC.blockHash);
    CertifiedGrows(u, w, v, c.lockedQC.blockHash);
    forall i | 0 <= i < |c.signed|
      ensures LockBound(v.tree, c.signed[i].hash) == LockBound(w.tree, c.signed[i].hash)
    {
      LockBoundGrows(w.tree, v.tree, G(u), c.signed[i].hash);
    }
    forall i | 0 <= i < |c.events| && c.events[i].DecideEvent?
      ensures Decidable(u, v, c.events[i].block)
    {
      DecidableGrows(u, w, v, c.events[i].block);
    }
  }

  // ---------------------------------------------------------------------------
  // Certificates move up

  lemma KeepsEvents(u: Setup, w: World, c: Core, e: Event)
    requires DecidedInv(u, w, c) && !e.DecideEvent?
    ensures DecidedInv(u, w, c.(events := c.events + [e]))
  {
    var d := c.(events := c.events + [e]);
    forall i | 0 <= i < |d.events| && d.events[i].DecideEvent?
      ensures Decidable(u, w, d.events[i].block)
    {
      assert d.events[i] == c.events[i];
    }
  }

  /** Facts that do not depend on the certificates or the event log. */
  lemma SameStore(u: Setup, w: World, c: Core, d: Core)
    requires d == c.(genericQC := d.genericQC, lockedQC := d.lockedQC, execQC := d.execQC, events := d.events)
    requires StoreInv(u, w, c) && ParkedInv(u, w, c)
    ensures StoreInv(u, w, d) && ParkedInv(u, w, d)
  {
    forall h | h in d.blockCache
      ensures StoredAt(u, w, d, h)
    {
      assert StoredAt(u, w, c, h);
    }
  }

  lemma HighestKeeps(u: Setup, w: World, env: Env, c: Core, block: Block, qc: QuorumCert)
    requires CoreInv(u, w, c)
    requires qc.blockHash in c.blockCache && block.height == HeightOf(w.tree, qc)
    requires QcVerifies(env, qc) ==> Certified(u, w, qc.blockHash)
    ensures var d := UpdateHighestQC(env, c, block, qc);
            CoreInv(u, w, d) && Rises(w.tree, c, d) && d.lockedQC == c.lockedQC && d.execQC == c.execQC &&
            (QcVerifies(env, qc) ==> block.height <= HeightOf(w.tree, d.genericQC))
  {
    var d := UpdateHighestQC(env, c, block, qc);
    CoreIsPlaced(u, w, c);
    HighestOrders(w.tree, G(u), env, c, block, qc);
    SameStore(u, w, c, d);
    if d != c {
      KeepsEvents(u, w, c, HqcUpdateEvent(qc));
    }
  }

  lemma LockedKeeps(u: Setup, w: World, c: Core, block: Block, qc: QuorumCert)
    requires CoreInv(u, w, c)
    requires qc.blockHash in c.blockCache && block.height == HeightOf(w.tree, qc) && Certified(u, w, qc.blockHash)
    requires block.height < HeightOf(w.tree, c.genericQC) || qc.blockHash == G(u)
    ensures var d := UpdateLockedQC(c, block, qc);
            CoreInv(u, w, d) && Rises(w.tree, c, d) && d.genericQC == c.genericQC &&
            block.height <= HeightOf(w.tree, d.lockedQC)
  {
    var d := UpdateLockedQC(c, block, qc);
    CoreIsPlaced(u, w, c);
    LockedOrders(w.tree, G(u), c, block, qc);
    SameStore(u, w, c, d);
    assert d.events == c.events;
  }

  predicate AllAncestors(u: Setup, w: World, h: Hash, blocks: seq<Block>) {
    forall i :: 0 <= i < |blocks| ==> Proper(u, w, blocks[i]) && Extends(w.tree, h, blocks[i].selfQc.blockHash)
  }

  /** The decide loop notifies ancestors of the block it starts from. */
  lemma {:induction false} DecidedAreAncestors(u: Setup, w: World, c: Core, h: Hash, n: int)
    requires TreeInv(u, w) && StoreInv(u, w, c) && h in w.tree && n <= w.tree[h].height
    ensures AllAncestors(u, w, h, DecidedBlocks(c.blockCache, h, n).0)
    decreases n
  {
    if n > 0 && h in c.blockCache {
      assert StoredAt(u, w, c, h) && LinkedAt(w.tree, G(u), h);
      var parent := w.tree[h].parent;
      DecidedAreAncestors(u, w, c, parent, n - 1);
      AncestorsOfParent(u, w, h, c.blockCache[h], DecidedBlocks(c.blockCache, parent, n - 1).0);
    }
  }

  lemma AncestorsOfParent(u: Setup, w: World, h: Hash, b: Block, rest: seq<Block>)
    requires TreeInv(u, w) && h in w.tree && h != G(u) && AllAncestors(u, w, w.tree[h].parent, rest)
    requires Proper(u, w, b) && Extends(w.tree, h, b.selfQc.blockHash)
    ensures AllAncestors(u, w, h, [b] + rest)
  {
    forall i | 0 <= i < |rest|
      ensures Extends(w.tree, h, rest[i].selfQc.blockHash)
    {
      ParentExtends(w.tree, G(u), h, rest[i].selfQc.blockHash);
    }
  }

  lemma DecidedEventsDecidable(u: Setup, w: World, c: Core, b2: Hash, b1: Hash, b0: Hash, blocks: seq<Block>)
    requires DecidedInv(u, w, c) && Committed(u, w, b2, b1, b0) && AllAncestors(u, w, b0, blocks)
    ensures DecidedInv(u, w, c.(events := c.events + DecideEvents(blocks)))
  {
    var events := c.events + DecideEvents(blocks);
    forall i | 0 <= i < |events| && events[i].DecideEvent?
      ensures Decidable(u, w, events[i].block)
    {
      if i < |c.events| {
        assert events[i] == c.events[i];
      } else {
        var d := blocks[i - |c.events|];
        assert events[i] == DecideEvents(blocks)[i - |c.events|] == DecideEvent(d);
        assert Decision(u, w, b2, b1, b0, d.selfQc.blockHash);
      }
    }
  }

  lemma DecideKeeps(u: Setup, w: World, env: Env, c: Core, b2: Hash, block1: Block, block0: Block)
    requires TreeInv(u, w) && CoreInv(u, w, c) && env.digest == u.digest
    requires block1.justify.Some? && block0.selfQc.blockHash == block1.justify.value.blockHash
    requires block0.selfQc.blockHash in c.blockCache && block0 == c.blockCache[block0.selfQc.blockHash]
    requires Committed(u, w, b2, block1.selfQc.blockHash, block0.selfQc.blockHash)
    requires block0.height <= HeightOf(w.tree, c.lockedQC)
    ensures var o := Decide(env, c, block1, block0);
            CoreInv(u, w, o.core) && o.core.genericQC == c.genericQC && o.core.lockedQC == c.lockedQC
  {
    var b0 := block0.selfQc.blockHash;
    assert StoredAt(u, w, c, b0) && StoredAt(u, w, c, c.execQC.blockHash);
    assert LinkedAt(w.tree, G(u), c.execQC.blockHash);
    var n := block0.height - w.tree[c.execQC.blockHash].height;
    var blocks := DecidedBlocks(c.blockCache, b0, n).0;
    DecidedAreAncestors(u, w, c, b0, n);
    DecidedEventsDecidable(u, w, c, b2, block1.selfQc.blockHash, b0, blocks);
    NewExecKeeps(u, w, c, block1.justify.value, blocks);
  }

  /** A new execQC no higher than the lock, and events that are decidable, keep the invariant. */
  lemma NewExecKeeps(u: Setup, w: World, c: Core, exec: QuorumCert, blocks: seq<Block>)
    requires CoreInv(u, w, c) && DecidedInv(u, w, c.(events := c.events + DecideEvents(blocks)))
    requires Held(w.tree, c, exec) && HeightOf(w.tree, exec) <= HeightOf(w.tree, c.lockedQC)
    ensures CoreInv(u, w, c.(execQC := exec, events := c.events + DecideEvents(blocks)))
  {
    var d := c.(execQC := exec, events := c.events + DecideEvents(blocks));
    SameStore(u, w, c, d);
    assert d.events == c.(events := d.events).events;
  }

  lemma JustifyFacts(u: Setup, w: World, c: Core, h: Hash, j: Hash)
    requires TreeInv(u, w) && StoreInv(u, w, c) && h in w.tree && h != G(u)
    requires w.tree[h].justify == Some(j) && j in c.blockCache
    ensures StoredAt(u, w, c, j) && Certified(u, w, j) && w.tree[j].height < w.tree[h].height
  {
    assert JustifiedAt(u, w, h) && BuiltAt(w.tree, G(u), h) && LinkedAt(w.tree, G(u), h) && StoredAt(u, w, c, j);
  }

  /** update keeps the replica's invariant, moves no certificate down, and leaves the lock at what the
      block calls for if it was there or the chain of certificates is at hand. */
  lemma UpdateKeeps(u: Setup, w: World, env: Env, c: Core, block: Block)
    requires TreeInv(u, w) && CoreInv(u, w, c) && env.digest == u.digest
    requires Admissible(w.tree, G(u), env, c, block)
    ensures var o := Update(env, c, block);
            && CoreInv(u, w, o.core) && Rises(w.tree, c, o.core)
            && (o.ok ==> (LockBound(w.tree, block.selfQc.blockHash) <= HeightOf(w.tree, o.core.lockedQC) <==>
                            LockReady(w.tree, c, block)))
  {
    var h, j2 := block.selfQc.blockHash, block.justify.value.blockHash;
    CoreIsPlaced(u, w, c);
    UpdateOrders(w.tree, G(u), env, c, block);
    if j2 in c.blockCache {
      var block2 := c.blockCache[j2];
      JustifyFacts(u, w, c, h, j2);
      HighestKeeps(u, w, env, c, block2, block.justify.value);
      var s1 := UpdateHighestQC(env, c, block2, block.justify.value);
      if block2.justify.Some? && block2.justify.value.blockHash in c.blockCache {
        UpdateFromLock(u, w, env, s1, h, block2);
      }
    }
  }

  /** The same for the part of update after the pre-commit phase. */
  lemma UpdateFromLock(u: Setup, w: World, env: Env, s1: Core, h: Hash, block2: Block)
    requires TreeInv(u, w) && CoreInv(u, w, s1) && env.digest == u.digest
    requires block2.selfQc.blockHash in s1.blockCache && s1.blockCache[block2.selfQc.blockHash] == block2
    requires h in w.tree && h != G(u) && w.tree[h].justify == Some(block2.selfQc.blockHash)
    requires block2.height <= HeightOf(w.tree, s1.genericQC)
    requires block2.justify.Some? && block2.justify.value.blockHash in s1.blockCache
    ensures var block1 := s1.blockCache[block2.justify.value.blockHash];
            var s2 := UpdateLockedQC(s1, block1, block2.justify.value);
            && CoreInv(u, w, s2)
            && (JustifyBlock(s2, block1).Some? && ThreeChain(block2, block1) ==>
                  CoreInv(u, w, Decide(env, s2, block1, JustifyBlock(s2, block1).value).core))
  {
    var j2, j1 := block2.selfQc.blockHash, block2.justify.value.blockHash;
    var block1 := s1.blockCache[j1];
    JustifyFacts(u, w, s1, h, j2);
    JustifyFacts(u, w, s1, j2, j1);
    LockedKeeps(u, w, s1, block1, block2.justify.value);
    var s2 := UpdateLockedQC(s1, block1, block2.justify.value);
    if JustifyBlock(s2, block1).Some? && ThreeChain(block2, block1) {
      var j0 := block1.justify.value.blockHash;
      JustifyFacts(u, w, s2, j1, j0);
      assert Committed(u, w, j2, j1, j0);
      DecideKeeps(u, w, env, s2, j2, block1, s2.blockCache[j0]);
    }
  }
}
