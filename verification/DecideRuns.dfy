/** Which blocks a replica decides, over any sequence of handler calls. */
module DecideRuns {
  import opened Types
  import opened Entity
  import opened Replica
  import opened TallyRuns

  function HashesOf(blocks: seq<Block>): (r: seq<Hash>)
    ensures |r| == |blocks|
  {
    if blocks == [] then [] else [blocks[0].selfQc.blockHash] + HashesOf(blocks[1..])
  }

  lemma HashesCons(b: Block, rest: seq<Block>)
    ensures HashesOf([b] + rest) == [b.selfQc.blockHash] + HashesOf(rest)
  {
    assert ([b] + rest)[1..] == rest;
  }

  lemma {:induction false} HashesSnoc(blocks: seq<Block>, b: Block)
    ensures HashesOf(blocks + [b]) == HashesOf(blocks) + [b.selfQc.blockHash]
  {
    if blocks == [] {
      assert blocks + [b] == [b];
    } else {
      assert (blocks + [b])[1..] == blocks[1..] + [b];
      HashesSnoc(blocks[1..], b);
    }
  }

  lemma {:induction false} HashesAppend(a: seq<Block>, b: seq<Block>)
    ensures HashesOf(a + b) == HashesOf(a) + HashesOf(b)
    decreases |b|
  {
    if b == [] {
      assert a + b == a;
    } else {
      var init, last := b[..|b| - 1], b[|b| - 1];
      HashesAppend(a, init);
      HashesSnoc(a + init, last);
      HashesSnoc(init, last);
      assert a + b == (a + init) + [last] && b == init + [last];
    }
  }

  /** The decided blocks, in the order they were notified. */
  function Decided(es: seq<Event>): seq<Block> {
    if es == [] then []
    else
      var e := es[|es| - 1];
      Decided(es[..|es| - 1]) + if e.DecideEvent? then [e.block] else []
  }

  function DecidedHashes(es: seq<Event>): seq<Hash> {
    HashesOf(Decided(es))
  }

  function CmdsOf(blocks: seq<Block>): seq<Bytes> {
    seq(|blocks|, i requires 0 <= i < |blocks| => blocks[i].cmds)
  }

  /** What the application is given to execute. */
  function DecidedCmds(es: seq<Event>): seq<Bytes> {
    CmdsOf(Decided(es))
  }

  lemma {:induction false} DecidedIsNotified(es: seq<Event>, b: Block)
    requires b in Decided(es)
    ensures DecideEvent(b) in es
    decreases |es|
  {
    var e := es[|es| - 1];
    if e != DecideEvent(b) {
      DecidedIsNotified(es[..|es| - 1], b);
    }
  }

  lemma {:induction false} DecidedAppend(es: seq<Event>, fs: seq<Event>)
    ensures Decided(es + fs) == Decided(es) + Decided(fs)
    decreases |fs|
  {
    if fs == [] {
      assert es + fs == es;
    } else {
      var last := |fs| - 1;
      assert (es + fs)[..|es + fs| - 1] == es + fs[..last];
      DecidedAppend(es, fs[..last]);
    }
  }

  lemma {:induction false} DecidedOfBlocks(blocks: seq<Block>)
    ensures Decided(DecideEvents(blocks)) == blocks
    decreases |blocks|
  {
    if blocks != [] {
      var init := blocks[..|blocks| - 1];
      assert DecideEvents(blocks)[..|blocks| - 1] == DecideEvents(init);
      DecidedOfBlocks(init);
      assert blocks == init + [blocks[|blocks| - 1]];
    }
  }

  /** An event log continued without a decision. */
  predicate NoDecision(es: seq<Event>, fs: seq<Event>) {
    es <= fs && forall i :: |es| <= i < |fs| ==> !fs[i].DecideEvent?
  }

  lemma {:induction false} NoDecisionKeeps(es: seq<Event>, fs: seq<Event>)
    requires NoDecision(es, fs)
    ensures Decided(fs) == Decided(es)
    decreases |fs|
  {
    if |es| < |fs| {
      assert es <= fs[..|fs| - 1];
      NoDecisionKeeps(es, fs[..|fs| - 1]);
    } else {
      assert es == fs;
    }
  }

  // ---------------------------------------------------------------------------
  // One update

  /** The lowest block of the three-chain ending in the justify of `block`, when update gets to the decide phase. */
  function Tail(s: Core, block: Block): Option<Block> {
    match JustifyBlock(s, block)
    case None => None
    case Some(block2) =>
      match JustifyBlock(s, block2)
      case None => None
      case Some(block1) => if ThreeChain(block2, block1) then JustifyBlock(s, block1) else None
  }

  function ExecHeight(s: Core): int {
    if s.execQC.blockHash in s.blockCache then s.blockCache[s.execQC.blockHash].height else 0
  }

  /** The blocks the decide loop would notify, starting from `block0`. */
  function Walked(env: Env, s: Core, block0: Block): seq<Block> {
    DecidedBlocks(s.blockCache, GetBlockHash(env.digest, block0), block0.height - ExecHeight(s)).0
  }

  lemma DecideEffect(env: Env, s: Core, block1: Block, block0: Block)
    requires s.execQC.blockHash in s.blockCache && block1.justify.Some?
    ensures var t := Decide(env, s, block1, block0).core;
            && t.execQC == block1.justify.value
            && Decided(t.events) == Decided(s.events) + Walked(env, s, block0)
  {
    var t, blocks := Decide(env, s, block1, block0).core, Walked(env, s, block0);
    assert t.events == s.events + DecideEvents(blocks);
    NotifiesBlocks(s.events, blocks);
  }

  lemma NotifiesBlocks(es: seq<Event>, blocks: seq<Block>)
    ensures Decided(es + DecideEvents(blocks)) == Decided(es) + blocks
  {
    DecidedAppend(es, DecideEvents(blocks));
    DecidedOfBlocks(blocks);
  }

  lemma UpdateWithoutTail(env: Env, s: Core, block: Block)
    requires Tail(s, block).None?
    ensures var t := Update(env, s, block).core;
            t.execQC == s.execQC && Decided(t.events) == Decided(s.events)
  {
    NoDecisionKeeps(s.events, Update(env, s, block).core.events);
  }

  /** The replica as the decide phase finds it. */
  function BeforeDecide(env: Env, s: Core, block: Block): Core
    requires Tail(s, block).Some?
  {
    var block2 := JustifyBlock(s, block).value;
    UpdateLockedQC(UpdateHighestQC(env, s, block2, block.justify.value), JustifyBlock(s, block2).value, block2.justify.value)
  }

  lemma UpdateReachesDecide(env: Env, s: Core, block: Block)
    requires Tail(s, block).Some?
    ensures var d := BeforeDecide(env, s, block);
            && Update(env, s, block) == Decide(env, d, JustifyBlock(s, JustifyBlock(s, block).value).value, Tail(s, block).value)
            && d.blockCache == s.blockCache && d.execQC == s.execQC && NoDecision(s.events, d.events)
  {
  }

  lemma UpdateWithTail(env: Env, s: Core, block: Block)
    requires s.execQC.blockHash in s.blockCache && Keyed(s) && Tail(s, block).Some?
    ensures var t, block0 := Update(env, s, block).core, Tail(s, block).value;
            && t.execQC.blockHash == block0.selfQc.blockHash && block0.selfQc.blockHash in s.blockCache
            && s.blockCache[block0.selfQc.blockHash] == block0
            && Decided(t.events) == Decided(s.events) + Walked(env, s, block0)
  {
    var d, block1 := BeforeDecide(env, s, block), JustifyBlock(s, JustifyBlock(s, block).value).value;
    UpdateReachesDecide(env, s, block);
    NoDecisionKeeps(s.events, d.events);
    DecideEffect(env, d, block1, Tail(s, block).value);
    SameWalk(env, s, d, Tail(s, block).value);
  }

  lemma SameWalk(env: Env, s: Core, d: Core, block0: Block)
    requires d.blockCache == s.blockCache && d.execQC == s.execQC
    ensures Walked(env, s, block0) == Walked(env, d, block0)
  {
  }

  // ---------------------------------------------------------------------------
  // A branch

  predicate HeldAt(env: Env, store: map<Hash, Block>, branch: seq<Hash>, i: nat)
    requires i < |branch|
  {
    && branch[i] in store && store[branch[i]].height == i && store[branch[i]].selfQc.blockHash == branch[i]
    && GetBlockHash(env.digest, store[branch[i]]) == branch[i]
    && (i > 0 ==> store[branch[i]].parentHash == branch[i - 1])
  }

  /** Whatever the store has of the branch at heights above `e` up to `k` is the branch's block of that height. */
  predicate BranchFits(env: Env, store: map<Hash, Block>, branch: seq<Hash>, e: int, k: int)
    requires -1 <= e && k < |branch|
  {
    forall i {:trigger HeldAt(env, store, branch, i)} :: e < i <= k && branch[i] in store ==> HeldAt(env, store, branch, i)
  }

  /** The store has all blocks of the branch at heights above `e` up to `k`. */
  predicate AllStored(store: map<Hash, Block>, branch: seq<Hash>, e: int, k: int)
    requires -1 <= e && k < |branch|
  {
    forall i :: e < i <= k ==> branch[i] in store
  }

  /** How many blocks of the branch are stored from height `k` downwards without a gap, at most `n`. */
  function Reach(store: map<Hash, Block>, branch: seq<Hash>, k: int, n: nat): (m: nat)
    requires k < |branch| && n <= k + 1
    ensures m <= n
    decreases n
  {
    if n == 0 || branch[k] !in store then 0 else 1 + Reach(store, branch, k - 1, n - 1)
  }

  lemma {:induction false} ReachesAllIff(store: map<Hash, Block>, branch: seq<Hash>, k: int, n: nat)
    requires k < |branch| && n <= k + 1
    ensures Reach(store, branch, k, n) == n <==> AllStored(store, branch, k - n, k)
    decreases n
  {
    if n > 0 && branch[k] in store {
      ReachesAllIff(store, branch, k - 1, n - 1);
    }
  }

  /** The hashes of `branch` from height `k` down to `k - n + 1`. */
  function Downwards<T>(branch: seq<T>, k: int, n: nat): (r: seq<T>)
    requires k < |branch| && n <= k + 1
    ensures |r| == n
    decreases n
  {
    if n == 0 then [] else [branch[k]] + Downwards(branch, k - 1, n - 1)
  }

  /** The decide loop notifies the blocks of the branch from `k` down to the first missing one, newest first,
      and fails exactly if one is missing. */
  lemma {:induction false} DecidedOnBranch(env: Env, store: map<Hash, Block>, branch: seq<Hash>, k: nat, n: nat)
    requires k < |branch| && n <= k && BranchFits(env, store, branch, k - n, k)
    ensures var (blocks, ok) := DecidedBlocks(store, branch[k], n);
            && HashesOf(blocks) == Downwards(branch, k, Reach(store, branch, k, n))
            && (ok <==> Reach(store, branch, k, n) == n)
    decreases n
  {
    if n > 0 && branch[k] in store {
      var rest, m := DecidedBlocks(store, branch[k - 1], n - 1), Reach(store, branch, k - 1, n - 1);
      HeldLink(env, store, branch, k - n, k);
      FitsBelow(env, store, branch, k - n, k);
      DecidedOnBranch(env, store, branch, k - 1, n - 1);
      HashesCons(store[branch[k]], rest.0);
      assert DecidedBlocks(store, branch[k], n) == ([store[branch[k]]] + rest.0, rest.1);
    }
  }

  lemma HeldLink(env: Env, store: map<Hash, Block>, branch: seq<Hash>, e: int, k: int)
    requires -1 <= e < k < |branch| && 0 < k && BranchFits(env, store, branch, e, k) && branch[k] in store
    ensures store[branch[k]].parentHash == branch[k - 1] && store[branch[k]].selfQc.blockHash == branch[k]
  {
    assert HeldAt(env, store, branch, k);
  }

  lemma FitsBelow(env: Env, store: map<Hash, Block>, branch: seq<Hash>, e: int, k: int)
    requires -1 <= e && 0 <= k < |branch| && BranchFits(env, store, branch, e, k)
    ensures BranchFits(env, store, branch, e, k - 1)
  {
  }

  /** How far above the last executed block a tail at height `k` is. */
  function Above(s: Core, k: nat): nat
    requires 0 <= ExecHeight(s)
  {
    if ExecHeight(s) <= k then k - ExecHeight(s) else 0
  }

  /** One update whose tail is the block of height `k` of a branch notifies the blocks from `k` downwards to the
      first missing one, but none at or below the last executed height. */
  lemma UpdateEmitsInterval(env: Env, s: Core, block: Block, branch: seq<Hash>, k: nat)
    requires s.execQC.blockHash in s.blockCache && Keyed(s) && 0 <= ExecHeight(s) && k < |branch|
    requires BranchFits(env, s.blockCache, branch, ExecHeight(s), k) && HeldAt(env, s.blockCache, branch, k)
    requires Tail(s, block).Some? && Tail(s, block).value.selfQc.blockHash == branch[k]
    ensures var t := Update(env, s, block).core;
            && t.execQC.blockHash == branch[k]
            && DecidedHashes(t.events) == DecidedHashes(s.events) +
                 Downwards(branch, k, Reach(s.blockCache, branch, k, Above(s, k)))
  {
    UpdateWithTail(env, s, block);
    HashesAppend(Decided(s.events), Walked(env, s, Tail(s, block).value));
    TailWalk(env, s, Tail(s, block).value, branch, k, Reach(s.blockCache, branch, k, Above(s, k)));
  }

  lemma TailWalk(env: Env, s: Core, block0: Block, branch: seq<Hash>, k: nat, m: nat)
    requires 0 <= ExecHeight(s) && k < |branch| && HeldAt(env, s.blockCache, branch, k) && s.blockCache[branch[k]] == block0
    requires BranchFits(env, s.blockCache, branch, ExecHeight(s), k) && m == Reach(s.blockCache, branch, k, Above(s, k))
    ensures HashesOf(Walked(env, s, block0)) == Downwards(branch, k, m)
  {
    WalkFrom(env, s, block0, branch, k);
    BranchWalk(env, s.blockCache, ExecHeight(s), branch, k);
  }

  lemma BranchWalk(env: Env, store: map<Hash, Block>, e: nat, branch: seq<Hash>, k: nat)
    requires k < |branch| && BranchFits(env, store, branch, e, k)
    ensures HashesOf(DecidedBlocks(store, branch[k], k - e).0) ==
            Downwards(branch, k, Reach(store, branch, k, if e <= k then k - e else 0))
  {
    if e <= k {
      DecidedOnBranch(env, store, branch, k, k - e);
    } else {
      NoWalk(store, branch, k, k - e);
    }
  }

  lemma WalkFrom(env: Env, s: Core, block0: Block, branch: seq<Hash>, k: nat)
    requires k < |branch| && HeldAt(env, s.blockCache, branch, k) && s.blockCache[branch[k]] == block0
    ensures Walked(env, s, block0) == DecidedBlocks(s.blockCache, branch[k], k - ExecHeight(s)).0
  {
  }

  lemma NoWalk(store: map<Hash, Block>, branch: seq<Hash>, k: nat, n: int)
    requires k < |branch| && n <= 0
    ensures HashesOf(DecidedBlocks(store, branch[k], n).0) == Downwards(branch, k, Reach(store, branch, k, 0))
  {
  }

  /** `done` holds the hashes of heights 1 to `e` of the branch, each once. */
  predicate CoversUpTo<T(==)>(branch: seq<T>, done: seq<T>, e: int) {
    0 <= e < |branch| && multiset(done) == multiset(branch[1..e + 1])
  }

  /** The replica has decided the branch from height 1 up to its last executed block, each block once. */
  predicate DecidedPrefix(branch: seq<Hash>, s: Core) {
    && s.execQC.blockHash in s.blockCache && CoversUpTo(branch, DecidedHashes(s.events), ExecHeight(s))
    && s.execQC.blockHash == branch[ExecHeight(s)]
  }

  lemma {:induction false} DownwardsIsSlice<T>(branch: seq<T>, k: int, n: nat)
    requires k < |branch| && n <= k + 1
    ensures multiset(Downwards(branch, k, n)) == multiset(branch[k + 1 - n..k + 1])
    decreases n
  {
    if n > 0 {
      DownwardsIsSlice(branch, k - 1, n - 1);
      BagGrows(branch, k, n, Downwards(branch, k - 1, n - 1));
    }
  }

  lemma BagGrows<T>(branch: seq<T>, k: int, n: nat, rest: seq<T>)
    requires 0 <= k < |branch| && 1 <= n <= k + 1 && multiset(rest) == multiset(branch[k + 1 - n..k])
    ensures multiset([branch[k]] + rest) == multiset(branch[k + 1 - n..k + 1])
  {
    SliceGrows(branch, k + 1 - n, k);
    MoveLast(branch[k], rest, branch[k + 1 - n..k]);
  }

  lemma MoveLast<T>(x: T, a: seq<T>, b: seq<T>)
    requires multiset(a) == multiset(b)
    ensures multiset([x] + a) == multiset(b + [x])
  {
  }

  lemma SliceGrows<T>(branch: seq<T>, i: nat, j: nat)
    requires i <= j < |branch|
    ensures branch[i..j + 1] == branch[i..j] + [branch[j]]
  {
  }

  lemma SlicesJoin<T>(branch: seq<T>, i: nat, j: nat, k: nat)
    requires i <= j <= k <= |branch|
    ensures branch[i..k] == branch[i..j] + branch[j..k]
  {
  }

  lemma JoinBags<T>(a: seq<T>, b: seq<T>, c: seq<T>, d: seq<T>)
    requires multiset(a) == multiset(c) && multiset(b) == multiset(d)
    ensures multiset(a + b) == multiset(c + d)
  {
  }

  lemma DecisionsJoin<T>(branch: seq<T>, done: seq<T>, e: nat, k: nat)
    requires e <= k < |branch| && multiset(done) == multiset(branch[1..e + 1])
    ensures multiset(done + Downwards(branch, k, k - e)) == multiset(branch[1..k + 1])
  {
    DownwardsIsSlice(branch, k, k - e);
    SliceJoins(branch, done, Downwards(branch, k, k - e), e, k);
  }

  lemma SliceJoins<T>(branch: seq<T>, done: seq<T>, more: seq<T>, e: nat, k: nat)
    requires e <= k < |branch| && multiset(done) == multiset(branch[1..e + 1]) && multiset(more) == multiset(branch[e + 1..k + 1])
    ensures multiset(done + more) == multiset(branch[1..k + 1])
  {
    JoinBags(done, more, branch[1..e + 1], branch[e + 1..k + 1]);
    SlicesJoin(branch, 1, e + 1, k + 1);
  }

  lemma TooFewDecisions<T>(branch: seq<T>, done: seq<T>, e: nat, k: nat, m: nat)
    requires CoversUpTo(branch, done, e) && k < |branch| && m <= k + 1 && e + m != k
    ensures !CoversUpTo(branch, done + Downwards(branch, k, m), k)
  {
    assert |multiset(done)| == |multiset(branch[1..e + 1])| == e;
    assert |multiset(branch[1..k + 1])| == k;
    assert |multiset(done + Downwards(branch, k, m))| == e + m;
  }

  lemma CoverMovesIff<T>(branch: seq<T>, done: seq<T>, e: nat, k: nat, m: nat)
    requires CoversUpTo(branch, done, e) && k < |branch| && m <= if e <= k then k - e else 0
    ensures CoversUpTo(branch, done + Downwards(branch, k, m), k) <==> e + m == k
  {
    if e + m == k {
      DecisionsJoin(branch, done, e, k);
    } else {
      TooFewDecisions(branch, done, e, k, m);
    }
  }

  /** An update with a tail on the branch keeps the decided blocks a gap-free prefix of the branch, each
      decided once, exactly when the tail is not below the last executed block and no block between the two
      is missing. */
  lemma DecidedPrefixIff(env: Env, s: Core, block: Block, branch: seq<Hash>, k: nat)
    requires Keyed(s) && DecidedPrefix(branch, s) && k < |branch|
    requires BranchFits(env, s.blockCache, branch, ExecHeight(s), k) && HeldAt(env, s.blockCache, branch, k)
    requires Tail(s, block).Some? && Tail(s, block).value.selfQc.blockHash == branch[k]
    ensures DecidedPrefix(branch, Update(env, s, block).core) <==>
              ExecHeight(s) <= k && AllStored(s.blockCache, branch, ExecHeight(s), k)
  {
    var e, m := ExecHeight(s), Reach(s.blockCache, branch, k, Above(s, k));
    UpdateEmitsInterval(env, s, block, branch, k);
    ReachesAllIff(s.blockCache, branch, k, Above(s, k));
    CoverMovesIff(branch, DecidedHashes(s.events), e, k, m);
  }

  // ---------------------------------------------------------------------------
  // Whole runs

  /** The tail of the three-chain that a call completes, if it stores a block and update gets that far. */
  function TailOf(env: Env, s: Core, op: Op): Option<Block> {
    var block := Stored(env, s, op);
    if block.Some? then Tail(StoreBlock(s, block.value), block.value) else None
  }

  /** The call does not change the height of a stored hash; and its tail, if there is one, is a block of the
      branch, as is whatever the store has of the branch between it and the last executed block. */
  predicate OnBranch(env: Env, branch: seq<Hash>, s: Core, op: Op) {
    Stored(env, s, op).Some? ==>
      var block := Stored(env, s, op).value;
      var s1 := StoreBlock(s, block);
      && (block.selfQc.blockHash in s.blockCache ==> s.blockCache[block.selfQc.blockHash].height == block.height)
      && (Tail(s1, block).Some? ==> TailFits(env, branch, s1, Tail(s1, block).value))
  }

  predicate TailFits(env: Env, branch: seq<Hash>, s: Core, block0: Block) {
    var k := block0.height;
    && 0 <= k < |branch| && block0.selfQc.blockHash == branch[k] && HeldAt(env, s.blockCache, branch, k)
    && 0 <= ExecHeight(s) && BranchFits(env, s.blockCache, branch, ExecHeight(s), k)
  }

  /** The tail is not below the last executed block, and no block between the two is missing. */
  predicate InOrder(env: Env, branch: seq<Hash>, s: Core, op: Op) {
    TailOf(env, s, op).Some? ==>
      var s1 := StoreBlock(s, Stored(env, s, op).value);
      var k := TailOf(env, s, op).value.height;
      0 <= ExecHeight(s1) <= k < |branch| && AllStored(s1.blockCache, branch, ExecHeight(s1), k)
  }

  predicate AllOnBranch(env: Env, rule: VoteRule, branch: seq<Hash>, s: Core, ops: seq<Op>) {
    ops == [] ||
    var before := ops[..|ops| - 1];
    AllOnBranch(env, rule, branch, s, before) && OnBranch(env, branch, Run(env, rule, s, before), ops[|ops| - 1])
  }

  predicate AllInOrder(env: Env, rule: VoteRule, branch: seq<Hash>, s: Core, ops: seq<Op>) {
    ops == [] ||
    var before := ops[..|ops| - 1];
    AllInOrder(env, rule, branch, s, before) && InOrder(env, branch, Run(env, rule, s, before), ops[|ops| - 1])
  }

  /** In the last state and in every state before, the decided blocks are a prefix of the branch. */
  predicate AlwaysPrefix(env: Env, rule: VoteRule, branch: seq<Hash>, s: Core, ops: seq<Op>) {
    && DecidedPrefix(branch, Run(env, rule, s, ops))
    && (ops != [] ==> AlwaysPrefix(env, rule, branch, s, ops[..|ops| - 1]))
  }

  /** A later state with the same decisions, the same execQC and the same block heights. */
  predicate SameDecisions(s: Core, t: Core) {
    && t.execQC == s.execQC && Decided(t.events) == Decided(s.events)
    && forall h :: h in s.blockCache ==> h in t.blockCache && t.blockCache[h].height == s.blockCache[h].height
  }

  lemma SamePrefix(branch: seq<Hash>, s: Core, t: Core)
    requires SameDecisions(s, t) && s.execQC.blockHash in s.blockCache
    ensures DecidedPrefix(branch, t) <==> DecidedPrefix(branch, s)
  {
  }

  lemma VoteDecidesNothing(env: Env, s: Core, vote: Vote)
    ensures SameDecisions(s, OnProposalVote(env, s, vote).core)
  {
    NoDecisionKeeps(s.events, OnProposalVote(env, s, vote).core.events);
  }

  /** Storing a block and updating with it. */
  lemma AbsorbPrefixIff(env: Env, s: Core, block: Block, branch: seq<Hash>)
    requires Keyed(s) && DecidedPrefix(branch, s)
    requires block.selfQc.blockHash in s.blockCache ==> s.blockCache[block.selfQc.blockHash].height == block.height
    requires var s1 := StoreBlock(s, block); Tail(s1, block).Some? ==> TailFits(env, branch, s1, Tail(s1, block).value)
    ensures var s1 := StoreBlock(s, block);
            var t := Update(env, s1, block).core;
            && t.execQC.blockHash in t.blockCache
            && (DecidedPrefix(branch, t) <==>
                  (Tail(s1, block).Some? ==>
                     var k := Tail(s1, block).value.height;
                     ExecHeight(s1) <= k && AllStored(s1.blockCache, branch, ExecHeight(s1), k)))
  {
    var s1 := StoreBlock(s, block);
    SamePrefix(branch, s, s1);
    if Tail(s1, block).Some? {
      DecidedPrefixIff(env, s1, block, branch, Tail(s1, block).value.height);
      UpdateWithTail(env, s1, block);
    } else {
      UpdateWithoutTail(env, s1, block);
      SamePrefix(branch, s1, Update(env, s1, block).core);
    }
  }

  lemma ReceiveAfterUpdate(env: Env, rule: VoteRule, s: Core, prop: Proposal)
    ensures SameDecisions(Update(env, StoreBlock(s, prop.block), prop.block).core, OnReceiveProposal(env, rule, s, prop).core)
  {
    var u := Update(env, StoreBlock(s, prop.block), prop.block);
    NoDecisionKeeps(u.core.events, OnReceiveProposal(env, rule, s, prop).core.events);
  }

  lemma ProposeAfterUpdate(env: Env, s: Core, op: Op)
    requires op.ProposeOp? && Stored(env, s, op).Some?
    ensures var block := Stored(env, s, op).value;
            SameDecisions(Update(env, StoreBlock(s, block), block).core,
                          OnPropose(env, s, op.curView, op.parentHash, op.cmds, op.timestamp).core)
  {
    var block := Stored(env, s, op).value;
    var u := Update(env, StoreBlock(s, block), block);
    if u.ok {
      var voted := Sign(u.core.(voteHeight := block.height), block.selfQc.blockHash);
      VoteDecidesNothing(env, voted, VoteProposal(env, op.curView, block.selfQc.blockHash));
      var o := OnProposalVote(env, voted, VoteProposal(env, op.curView, block.selfQc.blockHash));
      if o.ok {
        NoDecisionKeeps(o.core.events, SelfVote(env, u.core, op.curView, block).core.events);
      }
    }
  }

  lemma ProposePrefixIff(env: Env, rule: VoteRule, s: Core, op: Op, branch: seq<Hash>)
    requires op.ProposeOp? && Keyed(s) && DecidedPrefix(branch, s) && OnBranch(env, branch, s, op)
    ensures DecidedPrefix(branch, Step(env, rule, s, op)) <==> InOrder(env, branch, s, op)
  {
    if Stored(env, s, op).Some? {
      var block := Stored(env, s, op).value;
      AbsorbPrefixIff(env, s, block, branch);
      ProposeAfterUpdate(env, s, op);
      SamePrefix(branch, Update(env, StoreBlock(s, block), block).core, Step(env, rule, s, op));
    }
  }

  lemma ReceivePrefixIff(env: Env, rule: VoteRule, s: Core, op: Op, branch: seq<Hash>)
    requires op.ReceiveOp? && Keyed(s) && DecidedPrefix(branch, s) && OnBranch(env, branch, s, op)
    ensures DecidedPrefix(branch, Step(env, rule, s, op)) <==> InOrder(env, branch, s, op)
  {
    AbsorbPrefixIff(env, s, op.prop.block, branch);
    ReceiveAfterUpdate(env, rule, s, op.prop);
    SamePrefix(branch, Update(env, StoreBlock(s, op.prop.block), op.prop.block).core, Step(env, rule, s, op));
  }

  /** A call keeps the decided blocks a prefix of the branch, each decided once, exactly if it is in order. */
  lemma StepPrefixIff(env: Env, rule: VoteRule, s: Core, op: Op, branch: seq<Hash>)
    requires Keyed(s) && DecidedPrefix(branch, s) && OnBranch(env, branch, s, op)
    ensures DecidedPrefix(branch, Step(env, rule, s, op)) <==> InOrder(env, branch, s, op)
  {
    var t := Step(env, rule, s, op);
    match op
    case ProposeOp(_, _, _, _) => ProposePrefixIff(env, rule, s, op, branch);
    case ReceiveOp(_) => ReceivePrefixIff(env, rule, s, op, branch);
    case VoteOp(vote) =>
      VoteDecidesNothing(env, s, vote);
      SamePrefix(branch, s, t);
    case HighestOp(_, _) =>
      NoDecisionKeeps(s.events, t.events);
      SamePrefix(branch, s, t);
  }

  lemma ProposeKeepsKeyed(env: Env, s: Core, op: Op)
    requires Keyed(s) && op.ProposeOp?
    ensures Keyed(Step(env, Meant, s, op))
  {
    if Stored(env, s, op).Some? {
      var block, t := Stored(env, s, op).value, Step(env, Meant, s, op);
      var u, vote := Update(env, StoreBlock(s, block), block), VoteProposal(env, op.curView, block.selfQc.blockHash);
      ProposeStores(env, s, op);
      if u.ok {
        VoteConserves(env, u.core, vote, t, vote.blockHash);
      }
    }
  }

  lemma StepKeepsKeyed(env: Env, rule: VoteRule, s: Core, op: Op)
    requires Keyed(s)
    ensures Keyed(Step(env, rule, s, op))
  {
    match op
    case ProposeOp(_, _, _, _) => ProposeKeepsKeyed(env, s, op);
    case ReceiveOp(prop) => ReceiveStores(env, rule, s, prop);
    case VoteOp(vote) => VoteOpConserves(env, rule, s, op, vote.blockHash);
    case HighestOp(_, _) =>
  }

  lemma {:induction false} RunKeepsKeyed(env: Env, rule: VoteRule, s: Core, ops: seq<Op>)
    requires Keyed(s)
    ensures Keyed(Run(env, rule, s, ops))
  {
    if ops != [] {
      RunKeepsKeyed(env, rule, s, ops[..|ops| - 1]);
      StepKeepsKeyed(env, rule, Run(env, rule, s, ops[..|ops| - 1]), ops[|ops| - 1]);
    }
  }

  /** In every run whose three-chain tails lie on one branch: the decided blocks are at all times the branch from
      height 1 to the last executed block, each decided exactly once, if and only if no tail arrives below the
      last executed block and no block between the two is ever missing. */
  lemma {:induction false} DecidesWholeBranchIff(env: Env, rule: VoteRule, branch: seq<Hash>, ops: seq<Op>)
    requires branch != [] && branch[0] == GenesisHash(env.digest)
    requires AllOnBranch(env, rule, branch, Initial(env), ops)
    ensures AlwaysPrefix(env, rule, branch, Initial(env), ops) <==> AllInOrder(env, rule, branch, Initial(env), ops)
  {
    if ops != [] {
      var before, op := ops[..|ops| - 1], ops[|ops| - 1];
      DecidesWholeBranchIff(env, rule, branch, before);
      if AllInOrder(env, rule, branch, Initial(env), before) {
        RunKeepsKeyed(env, rule, Initial(env), before);
        StepPrefixIff(env, rule, Run(env, rule, Initial(env), before), op, branch);
      }
    }
  }

  // ---------------------------------------------------------------------------
  // The happy path

  /** A chain in which every block sits on, and justifies, the block before it. */
  predicate LinkedTo(env: Env, chain: seq<Block>, i: nat)
    requires i < |chain|
  {
    && chain[i].height == i && GetBlockHash(env.digest, chain[i]) == chain[i].selfQc.blockHash
    && (i > 0 ==>
          && chain[i].parentHash == chain[i - 1].selfQc.blockHash
          && chain[i].justify.Some? && chain[i].justify.value.blockHash == chain[i - 1].selfQc.blockHash)
  }

  predicate Linear(env: Env, chain: seq<Block>) {
    && chain != [] && chain[0] == Genesis(env.digest)
    && (forall i {:trigger LinkedTo(env, chain, i)} :: 0 <= i < |chain| ==> LinkedTo(env, chain, i))
    && Distinct(chain)
  }

  predicate ApartAt(chain: seq<Block>, i: nat, j: nat)
    requires i < |chain| && j < |chain|
  {
    chain[i].selfQc.blockHash != chain[j].selfQc.blockHash
  }

  predicate Distinct(chain: seq<Block>) {
    forall i, j {:trigger ApartAt(chain, i, j)} :: 0 <= i < j < |chain| ==> ApartAt(chain, i, j)
  }

  /** Block k of a chain has a hash that no other block of it has. */
  lemma OwnHash(chain: seq<Block>, k: nat)
    requires Distinct(chain) && k < |chain|
    ensures forall i :: 0 <= i < |chain| && i != k ==> chain[i].selfQc.blockHash != chain[k].selfQc.blockHash
  {
    forall i | 0 <= i < |chain| && i != k
      ensures chain[i].selfQc.blockHash != chain[k].selfQc.blockHash
    {
      assert if i < k then ApartAt(chain, i, k) else ApartAt(chain, k, i);
    }
  }

  /** Receiving the chain block by block. */
  function Receiving(chain: seq<Block>, views: seq<int>, n: nat): seq<Op>
    requires n < |chain| && |views| == |chain|
  {
    seq(n, i requires 0 <= i < n => ReceiveOp(Proposal(views[i + 1], chain[i + 1])))
  }

  /** Blocks 0 to n are stored as they were sent. */
  predicate HasAll(chain: seq<Block>, n: nat, s: Core)
    requires n < |chain|
  {
    forall i :: 0 <= i <= n ==>
      chain[i].selfQc.blockHash in s.blockCache && s.blockCache[chain[i].selfQc.blockHash] == chain[i]
  }

  lemma HasAllNext(chain: seq<Block>, n: nat, s: Core)
    requires Distinct(chain) && n + 1 < |chain| && HasAll(chain, n, s)
    ensures HasAll(chain, n + 1, StoreBlock(s, chain[n + 1]))
  {
    OwnHash(chain, n + 1);
  }

  /** What holds after the first n blocks: all are stored, and execQC trails by three. */
  predicate Fed(chain: seq<Block>, n: nat, s: Core)
    requires n < |chain|
  {
    && Keyed(s) && HasAll(chain, n, s)
    && s.execQC.blockHash == chain[if n >= 3 then n - 3 else 0].selfQc.blockHash
    && Decided(s.events) == if n >= 3 then chain[1..n - 2] else []
  }

  lemma FedTail(env: Env, chain: seq<Block>, n: nat, s1: Core)
    requires Linear(env, chain) && n + 1 < |chain|
    requires HasAll(chain, n + 1, s1)
    ensures Tail(s1, chain[n + 1]) == if n >= 2 then Some(chain[n - 2]) else None
  {
    assert LinkedTo(env, chain, n + 1) && LinkedTo(env, chain, n);
    if n >= 1 { assert LinkedTo(env, chain, n - 1); }
  }

  /** Storing the next block and updating with it. */
  lemma UpdateFeeds(env: Env, chain: seq<Block>, n: nat, s: Core)
    requires Linear(env, chain) && n + 1 < |chain| && Fed(chain, n, s)
    ensures Fed(chain, n + 1, Update(env, StoreBlock(s, chain[n + 1]), chain[n + 1]).core)
  {
    var block := chain[n + 1];
    var s1 := StoreBlock(s, block);
    HasAllNext(chain, n, s);
    FedTail(env, chain, n, s1);
    if n >= 2 {
      UpdateWithTail(env, s1, block);
      FeedDecides(env, chain, n, s1);
    } else {
      UpdateWithoutTail(env, s1, block);
    }
  }

  lemma FeedOne(env: Env, rule: VoteRule, chain: seq<Block>, n: nat, s: Core, view: int)
    requires Linear(env, chain) && n + 1 < |chain| && Fed(chain, n, s)
    ensures Fed(chain, n + 1, OnReceiveProposal(env, rule, s, Proposal(view, chain[n + 1])).core)
  {
    var prop := Proposal(view, chain[n + 1]);
    UpdateFeeds(env, chain, n, s);
    ReceiveAfterUpdate(env, rule, s, prop);
    ReceiveStores(env, rule, s, prop);
  }

  /** The one block the (n+1)-th proposal decides, for n > 2. */
  lemma FeedDecides(env: Env, chain: seq<Block>, n: nat, s1: Core)
    requires Linear(env, chain) && 2 <= n && n + 1 < |chain|
    requires HasAll(chain, n + 1, s1)
    requires s1.execQC.blockHash == chain[if n >= 3 then n - 3 else 0].selfQc.blockHash
    ensures Walked(env, s1, chain[n - 2]) == if n >= 3 then [chain[n - 2]] else []
    ensures n >= 3 ==> chain[1..n - 1] == chain[1..n - 2] + [chain[n - 2]]
  {
    assert LinkedTo(env, chain, n - 2);
    if n >= 3 {
      assert LinkedTo(env, chain, n - 3);
      WalkOne(env, s1, chain[n - 2]);
      SliceGrows(chain, 1, n - 2);
    }
  }

  lemma WalkOne(env: Env, s: Core, block: Block)
    requires GetBlockHash(env.digest, block) in s.blockCache && s.blockCache[GetBlockHash(env.digest, block)] == block
    requires s.execQC.blockHash in s.blockCache && block.height == ExecHeight(s) + 1
    ensures Walked(env, s, block) == [block]
  {
    assert DecidedBlocks(s.blockCache, block.parentHash, 0) == ([], true);
  }

  lemma NothingFed(env: Env, chain: seq<Block>)
    requires Linear(env, chain)
    ensures Fed(chain, 0, Initial(env))
  {
  }

  lemma ReceivingNext(env: Env, rule: VoteRule, chain: seq<Block>, views: seq<int>, n: nat)
    requires |views| == |chain| && n + 1 < |chain|
    ensures Run(env, rule, Initial(env), Receiving(chain, views, n + 1)) ==
            OnReceiveProposal(env, rule, Run(env, rule, Initial(env), Receiving(chain, views, n)),
                              Proposal(views[n + 1], chain[n + 1])).core
  {
    var op := ReceiveOp(Proposal(views[n + 1], chain[n + 1]));
    assert Receiving(chain, views, n + 1) == Receiving(chain, views, n) + [op];
    RunMore(env, rule, Initial(env), Receiving(chain, views, n), op);
  }

  lemma {:induction false} FeedAll(env: Env, rule: VoteRule, chain: seq<Block>, views: seq<int>, n: nat)
    requires Linear(env, chain) && |views| == |chain| && n < |chain|
    ensures Fed(chain, n, Run(env, rule, Initial(env), Receiving(chain, views, n)))
  {
    if n == 0 {
      NothingFed(env, chain);
      assert Receiving(chain, views, 0) == [];
    } else {
      FeedAll(env, rule, chain, views, n - 1);
      FeedOne(env, rule, chain, n - 1, Run(env, rule, Initial(env), Receiving(chain, views, n - 1)), views[n]);
      ReceivingNext(env, rule, chain, views, n - 1);
    }
  }

  /** A replica that receives a chain whose blocks justify their parents, in order, has after n >= 3 blocks
      decided exactly the blocks of heights 1 to n - 3, in that order. */
  lemma HappyPath(env: Env, rule: VoteRule, chain: seq<Block>, views: seq<int>, n: nat)
    requires Linear(env, chain) && |views| == |chain| && n < |chain|
    ensures var s := Run(env, rule, Initial(env), Receiving(chain, views, n));
            Fed(chain, n, s) && Decided(s.events) == if n >= 3 then chain[1..n - 2] else []
  {
    FeedAll(env, rule, chain, views, n);
  }
}
