/** How a world may grow: a new valid block, or one more ballot that obeys the vote rule. */
module WorldSteps {
  import opened Types
  import opened Quorum
  import opened Replica
  import opened BlockTree
  import opened Heights
  import opened World

  predicate Grows(w: World, v: World) {
    && Subtree(w.tree, v.tree)
    && w.ballots.Keys == v.ballots.Keys
    && forall r :: r in w.ballots ==> w.ballots[r] <= v.ballots[r]
  }

  lemma SignedGrows(w: World, v: World, r: ReplicaId, h: Hash)
    requires Grows(w, v) && HasSigned(w, r, h)
    ensures HasSigned(v, r, h)
  {
    var i :| 0 <= i < |w.ballots[r]| && w.ballots[r][i].hash == h;
    assert v.ballots[r][i].hash == h;
  }

  lemma FreshlySignedGrows(w: World, v: World, r: ReplicaId, h: Hash)
    requires Grows(w, v) && HasFreshlySigned(w, r, h)
    ensures HasFreshlySigned(v, r, h)
  {
    var i :| 0 <= i < |w.ballots[r]| && w.ballots[r][i].hash == h && w.ballots[r][i].lock != h;
    assert v.ballots[r][i].hash == h;
  }

  lemma CertifiedGrows(u: Setup, w: World, v: World, h: Hash)
    requires Grows(w, v) && Certified(u, w, h)
    ensures Certified(u, v, h)
  {
    forall r | r in Backers(u, w, h)
      ensures r in Backers(u, v, h)
    {
      if r !in u.faulty { SignedGrows(w, v, r, h); }
    }
    SubsetCardinality(Backers(u, w, h), Backers(u, v, h));
  }

  lemma FreshlyCertifiedGrows(u: Setup, w: World, v: World, h: Hash)
    requires Grows(w, v) && FreshlyCertified(u, w, h)
    ensures FreshlyCertified(u, v, h)
  {
    forall r | r in FreshBackers(u, w, h)
      ensures r in FreshBackers(u, v, h)
    {
      if r !in u.faulty { FreshlySignedGrows(w, v, r, h); }
    }
    SubsetCardinality(FreshBackers(u, w, h), FreshBackers(u, v, h));
  }

  lemma AuthenticGrows(u: Setup, w: World, v: World, qc: QuorumCert)
    requires Grows(w, v) && Authentic(u, w, qc)
    ensures Authentic(u, v, qc)
  {
    forall id | id in qc.signs && id in Honest(u) && SignatureVerifies(id, qc.signs[id].signature, qc.blockHash)
      ensures HasSigned(v, id, qc.blockHash)
    {
      SignedGrows(w, v, id, qc.blockHash);
    }
  }

  lemma BallotGrows(u: Setup, w: World, v: World, b: Ballot)
    requires TreeInv(u, w) && Grows(w, v) && BallotInv(u, w, b)
    ensures BallotInv(u, v, b)
  {
    CertifiedGrows(u, w, v, b.lock);
    if Extends(w.tree, b.hash, b.lock) {
      ExtendsGrows(w.tree, v.tree, G(u), b.hash, b.lock);
    }
  }

  lemma BallotsGrow(u: Setup, w: World, v: World, bs: seq<Ballot>)
    requires TreeInv(u, w) && Grows(w, v) && BallotsInv(u, w, bs)
    ensures BallotsInv(u, v, bs)
  {
    forall i | 0 <= i < |bs|
      ensures BallotInv(u, v, bs[i]) && LockBound(v.tree, bs[i].hash) == LockBound(w.tree, bs[i].hash)
    {
      assert BallotInv(u, w, bs[i]);
      BallotGrows(u, w, v, bs[i]);
      LockBoundGrows(w.tree, v.tree, G(u), bs[i].hash);
    }
    forall i, j | 0 <= i <= j < |bs|
      ensures LockBound(v.tree, bs[i].hash) <= v.tree[bs[j].lock].height
    {
      assert BallotInv(u, w, bs[j]);
    }
  }

  /** A block nobody knew has no ballots, so it cannot be certified by the faulty replicas alone. */
  lemma UnknownIsUncertified(u: Setup, w: World, h: Hash)
    requires Sound(u) && WorldInv(u, w) && h !in w.tree
    ensures !Certified(u, w, h)
  {
    forall r | r in Backers(u, w, h)
      ensures r in u.faulty
    {
      if r !in u.faulty {
        assert false;
      }
    }
    SubsetCardinality(Backers(u, w, h), u.faulty);
  }

  /** A place in the tree for a block whose justify is certified. */
  predicate ValidNode(u: Setup, w: World, h: Hash, n: Node) {
    FitsAt(w.tree, G(u), h, n) && Certified(u, w, n.justify.value)
  }

  lemma TreeInvGrows(u: Setup, w: World, v: World, h: Hash, n: Node)
    requires TreeInv(u, w) && ValidNode(u, w, h, n) && v == w.(tree := w.tree[h := n])
    ensures Grows(w, v) && TreeInv(u, v)
  {
    GroundedGrows(w.tree, G(u), h, n);
    forall x | x in v.tree && x != G(u)
      ensures JustifiedAt(u, v, x)
    {
      assert BuiltAt(v.tree, G(u), x);
      if x in w.tree {
        assert JustifiedAt(u, w, x);
      }
      CertifiedGrows(u, w, v, v.tree[x].justify.value);
    }
  }

  lemma AddBlock(u: Setup, w: World, h: Hash, n: Node)
    requires Sound(u) && WorldInv(u, w) && ValidNode(u, w, h, n)
    ensures var v := w.(tree := w.tree[h := n]); Grows(w, v) && WorldInv(u, v)
  {
    var v := w.(tree := w.tree[h := n]);
    TreeInvGrows(u, w, v, h, n);
    forall r | r in v.ballots
      ensures BallotsInv(u, v, v.ballots[r])
    {
      BallotsGrow(u, w, v, w.ballots[r]);
    }
    forall x | x in v.tree && x != G(u) && Certified(u, v, x)
      ensures FreshlyCertified(u, v, x)
    {
      SameBallots(u, w, v, x);
      if x !in w.tree {
        UnknownIsUncertified(u, w, x);
      }
      assert FreshlyCertified(u, w, x);
    }
  }

  lemma SameBallots(u: Setup, w: World, v: World, x: Hash)
    requires w.ballots == v.ballots
    ensures Backers(u, w, x) == Backers(u, v, x) && FreshBackers(u, w, x) == FreshBackers(u, v, x)
  {
    forall r
      ensures HasSigned(w, r, x) == HasSigned(v, r, x) && HasFreshlySigned(w, r, x) == HasFreshlySigned(v, r, x)
    {
    }
  }

  function WithBallot(w: World, r: ReplicaId, b: Ballot): World
    requires r in w.ballots
  {
    w.(ballots := w.ballots[r := w.ballots[r] + [b]])
  }

  /** The new ballot is above all earlier ones, obeys the vote rule, and its lock is at least what it
      and every earlier ballot called for. */
  predicate ValidBallot(u: Setup, w: World, r: ReplicaId, b: Ballot) {
    && r in w.ballots && BallotInv(u, w, b)
    && LockBound(w.tree, b.hash) <= w.tree[b.lock].height
    && forall i :: 0 <= i < |w.ballots[r]| ==>
         && w.ballots[r][i].hash in w.tree
         && w.tree[w.ballots[r][i].hash].height < w.tree[b.hash].height
         && LockBound(w.tree, w.ballots[r][i].hash) <= w.tree[b.lock].height
  }

  lemma ExtendedBallots(u: Setup, w: World, r: ReplicaId, b: Ballot)
    requires WorldInv(u, w) && ValidBallot(u, w, r, b)
    ensures BallotsInv(u, w, w.ballots[r] + [b])
  {
    var bs, cs := w.ballots[r], w.ballots[r] + [b];
    assert BallotsInv(u, w, bs);
    forall i | 0 <= i < |cs|
      ensures BallotInv(u, w, cs[i])
    {
      if i < |bs| { assert BallotInv(u, w, bs[i]); }
    }
    forall i, j | 0 <= i < j < |cs|
      ensures w.tree[cs[i].hash].height < w.tree[cs[j].hash].height
    {
      assert cs[i] == bs[i];
    }
    forall i, j | 0 <= i <= j < |cs|
      ensures LockBound(w.tree, cs[i].hash) <= w.tree[cs[j].lock].height
    {
      if i < |bs| { assert cs[i] == bs[i]; }
    }
  }

  /** A block that was not certified before the ballot has only fresh backers afterwards. */
  lemma BackersAreFresh(u: Setup, w: World, r: ReplicaId, b: Ballot, x: Hash)
    requires WorldInv(u, w) && ValidBallot(u, w, r, b) && !Certified(u, w, x)
    ensures Backers(u, WithBallot(w, r, b), x) == FreshBackers(u, WithBallot(w, r, b), x)
  {
    var v := WithBallot(w, r, b);
    forall q | q in Backers(u, v, x) && q !in u.faulty
      ensures HasFreshlySigned(v, q, x)
    {
      var bs := v.ballots[q];
      var i :| 0 <= i < |bs| && bs[i].hash == x;
      if i < |w.ballots[q]| {
        assert BallotsInv(u, w, w.ballots[q]);
        assert BallotInv(u, w, w.ballots[q][i]);
      }
      assert bs[i].lock != x;
    }
  }

  lemma SameTreeKeepsTreeInv(u: Setup, w: World, v: World)
    requires TreeInv(u, w) && Grows(w, v) && v.tree == w.tree
    ensures TreeInv(u, v)
  {
    forall x | x in v.tree && x != G(u)
      ensures JustifiedAt(u, v, x)
    {
      assert JustifiedAt(u, w, x);
      CertifiedGrows(u, w, v, w.tree[x].justify.value);
    }
  }

  lemma AddBallot(u: Setup, w: World, r: ReplicaId, b: Ballot)
    requires Sound(u) && WorldInv(u, w) && ValidBallot(u, w, r, b)
    ensures Grows(w, WithBallot(w, r, b)) && WorldInv(u, WithBallot(w, r, b))
  {
    var v := WithBallot(w, r, b);
    SameTreeKeepsTreeInv(u, w, v);
    ExtendedBallots(u, w, r, b);
    forall q | q in v.ballots
      ensures BallotsInv(u, v, v.ballots[q])
    {
      BallotsGrow(u, w, v, v.ballots[q]);
    }
    forall x | x in v.tree && x != G(u) && Certified(u, v, x)
      ensures FreshlyCertified(u, v, x)
    {
      if Certified(u, w, x) {
        assert FreshlyCertified(u, w, x);
        FreshlyCertifiedGrows(u, w, v, x);
      } else {
        BackersAreFresh(u, w, r, b, x);
      }
    }
  }
}
