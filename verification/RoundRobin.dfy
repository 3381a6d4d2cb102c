/** pacemaker/roundrobin.go: the pacemaker as the object the program mutates, driving a core. */
module RoundRobin {
  import opened Types
  import opened Quorum
  import opened HotStuff
  import opened Pacemaker

  /** A proposal in flight inside a replica; the pacemaker rewrites its view number in place. */
  class ProposalMsg {
    var viewNumber: int
    const block: Block

    constructor (viewNumber: int, block: Block)
      ensures this.viewNumber == viewNumber && this.block == block
    {
      this.viewNumber := viewNumber;
      this.block := block;
    }
  }

  class RoundRobinPM {
    const env: Env
    const hs: HotStuffCore
    var curView: int
    var views: map<int, map<ReplicaId, NewView>>
    var submitC: seq<Bytes>
    var sent: seq<Sent>
    var spawned: seq<Task>
    ghost var fired: seq<int>

    /** Every message is kept under its own view number. */
    ghost predicate Valid()
      reads this
    {
      && Seated(env) && hs.env == env && curView >= 0
      && forall v, id :: v in views && id in views[v] ==> views[v][id].viewNumber == v
    }

    ghost function View(): PM
      reads this, hs
    {
      PM(curView, views, submitC, hs.View(), sent, spawned, fired)
    }

    constructor (hs: HotStuffCore)
      requires Seated(hs.env)
      ensures Valid() && this.hs == hs && this.env == hs.env
      ensures View() == PM(0, map[], [], hs.View(), [], [], [])
    {
      this.hs, this.env := hs, hs.env;
      curView, views, submitC, sent, spawned, fired := 0, map[], [], [], [], [];
    }

    method OnBeat(timestamp: int)
      requires Valid()
      modifies this, hs
      ensures Valid() && View() == Pacemaker.OnBeat(env, old(View()), timestamp)
    {
      if submitC == [] {
        return;
      }
      var cmds := submitC[0];
      submitC := submitC[1..];
      var leader := GetCurLeader(env.metadata.n, curView);
      if leader != env.id {
        sent := sent + [ForwardTo(leader, cmds)];
      } else {
        var _ := hs.OnPropose(curView, hs.genericQC.blockHash, cmds, timestamp);
      }
    }

    /** Records a message under its view and returns one of the recorded messages once there are N - F. */
    method AddNewViewMsg(id: ReplicaId, nv: NewView) returns (highView: Option<NewView>)
      requires Valid()
      modifies this`views, this`fired
      ensures Valid() && View() == Pacemaker.AddNewViewMsg(env, old(View()), id, nv)
      ensures highView.Some? <==> Fires(env, old(View()), id, nv)
      ensures highView.Some? ==> highView.value.viewNumber == nv.viewNumber
    {
      highView := None;
      ghost var before := View();
      if nv.viewNumber in views {
        var at := views[nv.viewNumber];
        if |at| >= GetQuorumSize(env.metadata) {
          assert views[nv.viewNumber := at] == views;
          return;
        }
        if id in at {
          if at[id].genericQc.viewNumber > nv.genericQc.viewNumber {
            views := views[nv.viewNumber := at[id := nv]];
          } else {
            assert views[nv.viewNumber := at] == views;
          }
        } else {
          at := at[id := nv];
          assert |at| == |views[nv.viewNumber]| + 1 by {
            assert at.Keys == views[nv.viewNumber].Keys + {id};
          }
          views := views[nv.viewNumber := at];
          if |at| == GetQuorumSize(env.metadata) {
            assert id in at;
            var high, who := HighestOf(at);
            assert at[who].viewNumber == nv.viewNumber;
            highView := Some(high);
          }
        }
      } else {
        views := views[nv.viewNumber := map[id := nv]];
        if 1 == GetQuorumSize(env.metadata) {
          highView := Some(nv);
        }
      }
      if Fires(env, before, id, nv) {
        fired := fired + [nv.viewNumber];
      }
    }

    /** Ranges over messages for one with the highest view number. */
    method HighestOf(at: map<ReplicaId, NewView>) returns (high: NewView, ghost who: ReplicaId)
      requires at != map[]
      ensures who in at && at[who] == high
      ensures forall id :: id in at ==> at[id].viewNumber <= high.viewNumber
    {
      var ids := at.Keys;
      var first := Pick(ids);
      high, who := at[first], first;
      ids := ids - {first};
      while ids != {}
        invariant ids <= at.Keys && who in at && at[who] == high
        invariant forall id :: id in at && id !in ids ==> at[id].viewNumber <= high.viewNumber
        decreases |ids|
      {
        var id := Pick(ids);
        ids := ids - {id};
        if at[id].viewNumber > high.viewNumber {
          high, who := at[id], id;
        }
      }
    }

    method ClearViews()
      requires Valid()
      modifies this`views
      ensures Valid() && View() == Pacemaker.ClearViews(old(View()))
    {
      var pending := views.Keys;
      ghost var start := views;
      while pending != {}
        invariant pending <= start.Keys
        invariant forall v :: v in views <==> v in start && (v in pending || v >= curView)
        invariant forall v :: v in views ==> views[v] == start[v]
        decreases |pending|
      {
        var key := Pick(pending);
        pending := pending - {key};
        if key < curView {
          views := views - {key};
        }
      }
      assert forall v :: v in views <==> v in start && v >= curView;
      assert views == map v | v in start && v >= curView :: start[v];
    }

    method UpdateQcHigh(viewNumber: int)
      requires Valid()
      modifies this`curView
      ensures Valid() && View() == Pacemaker.UpdateQcHigh(old(View()), viewNumber)
    {
      if viewNumber > curView {
        curView := viewNumber;
      }
    }

    method OnReceiveNewView(id: ReplicaId, nv: NewView)
      requires Valid()
      modifies this, hs
      ensures Valid() && View() == Pacemaker.OnReceiveNewView(env, old(View()), id, nv)
    {
      if nv.viewNumber < curView {
        return;
      }
      var block := hs.LoadBlock(nv.genericQc.blockHash);
      if block.None? {
        return;
      }
      if nv.genericQc.viewNumber > hs.genericQC.viewNumber {
        hs.UpdateHighestQC(block.value, nv.genericQc);
        UpdateQcHigh(nv.viewNumber);
        spawned := spawned + [if submitC != [] then Beat else NextSync];
        return;
      } else if nv.viewNumber > curView {
        curView := nv.viewNumber;
        sent := sent + [NewViewToAll(NewView(curView, hs.genericQC))];
        return;
      }
      var highView := AddNewViewMsg(id, nv);
      if highView.None? {
        return;
      }
      hs.UpdateHighestQC(block.value, nv.genericQc);
      UpdateQcHigh(highView.value.viewNumber);
      if submitC != [] {
        spawned := spawned + [Beat];
      }
    }

    /** `status(v)` is what the network reports about the leader of view v when it is asked. */
    method OnNextSyncView(status: int -> bool)
      requires Valid()
      modifies this, hs
      ensures Valid() && View() == Pacemaker.OnNextSyncView(env, old(View()), status)
      decreases Gap(curView, env.id, env.metadata.n)
    {
      var leader := GetLeader(env.metadata.n, curView);
      curView := curView + 1;
      if leader != env.id {
        if !status(curView) {
          GapShrinks(curView - 1, env.id, env.metadata.n);
          OnNextSyncView(status);
          return;
        }
        sent := sent + [NewViewTo(leader, NewView(curView, hs.genericQC))];
      } else if submitC != [] {
        OnReceiveNewView(env.id, NewView(curView, hs.genericQC));
      }
      ClearViews();
    }

    method OnQcFinishEvent(qc: QuorumCert)
      requires Valid()
      modifies this
      ensures Valid() && View() == Pacemaker.OnQcFinishEvent(env, old(View()), qc)
    {
      if qc.viewNumber > curView {
        curView := qc.viewNumber;
      }
      if GetLeader(env.metadata.n, curView) == env.id {
        curView := curView + 1;
        if submitC != [] {
          spawned := spawned + [Beat];
        } else {
          spawned := spawned + [NextSync];
        }
      } else {
        spawned := spawned + [NextSync];
      }
    }

    method OnProposeEvent(proposal: ProposalMsg, status: int -> bool)
      requires Valid()
      modifies this, proposal
      ensures Valid() && View() == Pacemaker.OnProposeEvent(env, old(View()), old(proposal.viewNumber), proposal.block, status)
    {
      if GetLeader(env.metadata.n, curView) != env.id {
        if !status(curView) {
          curView := curView + 1;
          proposal.viewNumber := curView;
        }
      }
      sent := sent + [ProposalToAll(proposal.viewNumber, proposal.block)];
    }

    /** Hands the vote to the next leader, which may be this replica. */
    method PassOn(viewNumber: int, vote: Vote)
      requires Valid()
      modifies this`sent, hs
      ensures Valid() && View() == PassVote(env, old(View()), viewNumber, vote)
    {
      var leader := GetLeader(env.metadata.n, viewNumber);
      if leader != env.id {
        sent := sent + [VoteTo(leader, vote)];
      } else {
        var _ := hs.OnProposalVote(vote);
      }
    }

    /** The recursion rewrites the proposal's view number before the outer calls read it. */
    method OnReceiveProposal(proposal: ProposalMsg, vote: Vote, status: int -> bool)
      requires Valid()
      modifies this, hs, proposal
      ensures Valid() && View() == Pacemaker.OnReceiveProposal(env, old(View()), old(proposal.viewNumber), vote, status)
      ensures proposal.viewNumber == RoutedView(env, old(View()), old(proposal.viewNumber), status)
      decreases Gap(Max(curView, proposal.viewNumber), env.id, env.metadata.n)
    {
      ghost var p, v := View(), proposal.viewNumber;
      if proposal.viewNumber > curView {
        curView := proposal.viewNumber;
      }
      if GetLeader(env.metadata.n, curView) != env.id && !status(curView) {
        GapShrinks(curView, env.id, env.metadata.n);
        curView := curView + 1;
        proposal.viewNumber := curView;
        OnReceiveProposal(proposal, vote, status);
        SkipOne(env, p, v, vote, status);
      } else {
        SkipNone(env, p, v, vote, status);
      }
      PassOn(proposal.viewNumber, vote);
    }
  }

  /** A live next leader at once: the vote is passed on one time. */
  lemma SkipNone(env: Env, p: PM, viewNumber: int, vote: Vote, status: int -> bool)
    requires Seated(env) && p.curView >= 0
    requires var w := Max(p.curView, viewNumber); (w + 1) % env.metadata.n == env.id || status(w)
    ensures RoutedView(env, p, viewNumber, status) == viewNumber
    ensures Pacemaker.OnReceiveProposal(env, p, viewNumber, vote, status) ==
              PassVote(env, p.(curView := Max(p.curView, viewNumber)), viewNumber, vote)
  {
    var w := Max(p.curView, viewNumber);
    assert Settle(w, env.id, env.metadata.n, status) == w;
    assert PassTimes(env, p.(curView := w), viewNumber, vote, 0) == p.(curView := w);
  }

  /** Where the search ends does not depend on whether one starts at a skipped view or after it. */
  lemma SettleAfterSkip(env: Env, w: int, status: int -> bool)
    requires Seated(env) && (w + 1) % env.metadata.n != env.id && !status(w)
    ensures Settle(w, env.id, env.metadata.n, status) == Settle(w + 1, env.id, env.metadata.n, status)
  {
    assert NextLive(w, env.id, env.metadata.n, Asked(status)) == NextLive(w + 1, env.id, env.metadata.n, Asked(status));
  }

  /** A skipped leader: the inner call does everything, and the vote is passed on once more. */
  lemma SkipOne(env: Env, p: PM, viewNumber: int, vote: Vote, status: int -> bool)
    requires Seated(env) && p.curView >= 0
    requires var w := Max(p.curView, viewNumber); (w + 1) % env.metadata.n != env.id && !status(w)
    ensures var w := Max(p.curView, viewNumber);
            var q := p.(curView := w + 1);
            && RoutedView(env, q, w + 1, status) == RoutedView(env, p, viewNumber, status)
            && Pacemaker.OnReceiveProposal(env, p, viewNumber, vote, status) ==
                 PassVote(env, Pacemaker.OnReceiveProposal(env, q, w + 1, vote, status),
                          RoutedView(env, p, viewNumber, status), vote)
  {
    var w := Max(p.curView, viewNumber);
    SettleAfterSkip(env, w, status);
    var q, m := p.(curView := w + 1), Repeats(env, p, viewNumber, status);
    assert Repeats(env, q, w + 1, status) == m - 1;
    assert p.(curView := Settle(w, env.id, env.metadata.n, status)) ==
           q.(curView := Settle(w + 1, env.id, env.metadata.n, status));
  }
}
