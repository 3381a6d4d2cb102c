/** The tree that parent hashes span over the blocks of a run, seen without its tallies. */
module BlockTree {
  import opened Types

  /** What a block's place in the tree depends on. */
  datatype Node = Node(parent: Hash, height: int, justify: Option<Hash>)

  type Tree = map<Hash, Node>

  function NodeOf(b: Block): Node {
    Node(b.parentHash, b.height, if b.justify.None? then None else Some(b.justify.value.blockHash))
  }

  /** `h` is genesis or has its parent in the tree, one step lower. */
  predicate LinkedAt(t: Tree, g: Hash, h: Hash) {
    && h in t
    && (h != g ==> t[h].parent in t && t[h].height == t[t[h].parent].height + 1 && t[h].height > 0)
  }

  predicate Linked(t: Tree, g: Hash) {
    && g in t && t[g].height == 0
    && forall h {:trigger LinkedAt(t, g, h)} :: h in t ==> LinkedAt(t, g, h)
  }

  /** The hash reached by following `k` parent links. */
  function Walk(t: Tree, h: Hash, k: nat): Hash
    decreases k
  {
    if k == 0 || h !in t then h else Walk(t, t[h].parent, k - 1)
  }

  /** `a` is `h` itself or one of its ancestors. */
  predicate Extends(t: Tree, h: Hash, a: Hash) {
    h in t && a in t && t[a].height <= t[h].height && Walk(t, h, t[h].height - t[a].height) == a
  }

  predicate Subtree(t: Tree, u: Tree) {
    forall h :: h in t ==> h in u && u[h] == t[h]
  }

  /** Height of the block that voting for `h` must have locked: the justify of its justify. */
  function LockBound(t: Tree, h: Hash): int {
    if h in t && t[h].justify.Some? && t[h].justify.value in t then
      var j := t[t[h].justify.value].justify;
      if j.Some? && j.value in t then t[j.value].height else 0
    else 0
  }

  /** The vote rule: the justify block is above the lock, or the block extends the lock. */
  predicate SafeNode(t: Tree, h: Hash, lock: Hash) {
    && h in t && lock in t && t[h].justify.Some? && t[h].justify.value in t
    && (t[t[h].justify.value].height > t[lock].height || Extends(t, h, lock))
  }

  lemma {:induction false} WalkHeight(t: Tree, g: Hash, h: Hash, k: nat)
    requires Linked(t, g) && h in t && k <= t[h].height
    ensures Walk(t, h, k) in t && t[Walk(t, h, k)].height == t[h].height - k
    decreases k
  {
    assert LinkedAt(t, g, h);
    if k > 0 {
      WalkHeight(t, g, t[h].parent, k - 1);
    }
  }

  lemma {:induction false} WalkCompose(t: Tree, h: Hash, i: nat, j: nat)
    ensures Walk(t, Walk(t, h, i), j) == Walk(t, h, i + j)
    decreases i
  {
    if i > 0 && h in t {
      WalkCompose(t, t[h].parent, i - 1, j);
    }
  }

  lemma {:induction false} WalkGrows(t: Tree, u: Tree, g: Hash, h: Hash, k: nat)
    requires Linked(t, g) && Subtree(t, u) && h in t && k <= t[h].height
    ensures Walk(u, h, k) == Walk(t, h, k)
    decreases k
  {
    assert LinkedAt(t, g, h);
    if k > 0 {
      WalkGrows(t, u, g, t[h].parent, k - 1);
    }
  }

  lemma ExtendsGrows(t: Tree, u: Tree, g: Hash, h: Hash, a: Hash)
    requires Linked(t, g) && Subtree(t, u) && Extends(t, h, a)
    ensures Extends(u, h, a)
  {
    assert LinkedAt(t, g, a);
    WalkGrows(t, u, g, h, t[h].height - t[a].height);
  }

  lemma ExtendsTransitive(t: Tree, x: Hash, y: Hash, z: Hash)
    requires Extends(t, x, y) && Extends(t, y, z)
    ensures Extends(t, x, z)
  {
    WalkCompose(t, x, t[x].height - t[y].height, t[y].height - t[z].height);
  }

  lemma ParentExtends(t: Tree, g: Hash, h: Hash, a: Hash)
    requires Linked(t, g) && h in t && h != g && Extends(t, t[h].parent, a)
    ensures Extends(t, h, a) && t[a].height < t[h].height
  {
    assert LinkedAt(t, g, h);
  }

  /** Every block extends genesis, and genesis is the only block of height 0. */
  lemma ExtendsGenesis(t: Tree, g: Hash, h: Hash)
    requires Linked(t, g) && h in t
    ensures Extends(t, h, g)
  {
    assert LinkedAt(t, g, h);
    WalkHeight(t, g, h, t[h].height);
    assert LinkedAt(t, g, Walk(t, h, t[h].height));
  }

  /** Two ancestors of one block lie on one branch. */
  lemma AncestorsComparable(t: Tree, g: Hash, x: Hash, a: Hash, b: Hash)
    requires Linked(t, g) && Extends(t, x, a) && Extends(t, x, b) && t[a].height <= t[b].height
    ensures Extends(t, b, a)
  {
    WalkCompose(t, x, t[x].height - t[b].height, t[b].height - t[a].height);
  }

  /** Adding a block under an existing parent keeps the tree linked. */
  lemma LinkedGrows(t: Tree, g: Hash, h: Hash, n: Node)
    requires Linked(t, g) && (h in t ==> t[h] == n)
    requires h != g ==> n.parent in t && n.height == t[n.parent].height + 1
    ensures Linked(t[h := n], g) && Subtree(t, t[h := n])
  {
    var u := t[h := n];
    forall x | x in u
      ensures LinkedAt(u, g, x)
    {
      if x in t {
        assert LinkedAt(t, g, x);
      } else {
        assert LinkedAt(t, g, n.parent);
      }
    }
  }
}
