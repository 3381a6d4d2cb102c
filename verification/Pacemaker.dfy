/** pacemaker/roundrobin.go as functions on the value of a pacemaker and the core it drives. */
module Pacemaker {
  import opened Types
  import opened Quorum
  import opened Entity
  import opened Replica

  /** Messages handed to the network. */
  datatype Sent =
    | VoteTo(to: ReplicaId, vote: Vote)
    | NewViewTo(to: ReplicaId, view: NewView)
    | NewViewToAll(view: NewView)
    | ProposalToAll(viewNumber: int, block: Block)
    | ForwardTo(to: ReplicaId, cmds: Bytes)

  /** Handlers started in the background. */
  datatype Task = Beat | NextSync

  /** `queue` is the content of the submit channel, `fired` the views for which a quorum of new-view
      messages was announced, oldest first. */
  datatype PM = PM(
    curView: int,
    views: map<int, map<ReplicaId, NewView>>,
    queue: seq<Bytes>,
    core: Core,
    sent: seq<Sent>,
    spawned: seq<Task>,
    fired: seq<int>)

  /** Go's remainder: the sign follows the dividend. */
  function GoRem(a: int, b: int): int
    requires b > 0
  {
    if a >= 0 then a % b else -((-a) % b)
  }

  function GetLeader(n: int, view: int): ReplicaId
    requires n > 0
  {
    GoRem(view + 1, n)
  }

  function GetCurLeader(n: int, view: int): ReplicaId
    requires n > 0
  {
    GoRem(view, n)
  }

  function Max(a: int, b: int): int {
    if a > b then a else b
  }

  /** The replica is one of the n that take turns. */
  predicate Seated(env: Env) {
    0 <= env.id < env.metadata.n
  }

  function Initially(env: Env): PM {
    PM(0, map[], [], Initial(env), [], [], [])
  }

  // ---------------------------------------------------------------------------
  // Skipping leaders

  /** How many views are left before this replica's own turn. */
  function Gap(view: int, self: ReplicaId, n: int): nat
    requires n > 0
  {
    (self - view - 1) % n
  }

  lemma ModPredecessor(x: int, n: int)
    requires n > 0 && x % n != 0
    ensures (x - 1) % n == x % n - 1
  {
    var q, r := x / n, x % n;
    assert x - 1 == n * q + (r - 1);
    DivUnique(x - 1, n, q, r - 1);
  }

  lemma OwnTurnIff(view: int, self: ReplicaId, n: int)
    requires 0 <= self < n
    ensures (view + 1) % n == self <==> Gap(view, self, n) == 0
  {
    var x := self - view - 1;
    if x % n == 0 {
      assert view + 1 == n * (-(x / n)) + self;
      DivUnique(view + 1, n, -(x / n), self);
    }
    if (view + 1) % n == self {
      assert x == n * (-((view + 1) / n)) + 0;
      DivUnique(x, n, -((view + 1) / n), 0);
    }
  }

  lemma GapShrinks(view: int, self: ReplicaId, n: int)
    requires 0 <= self < n && (view + 1) % n != self
    ensures Gap(view + 1, self, n) == Gap(view, self, n) - 1
  {
    OwnTurnIff(view, self, n);
    ModPredecessor(self - view - 1, n);
  }

  /** The view the skipping of dead leaders ends in, where `status(v)` is what the network reports about
      the leader of view v when it is asked. */
  function NextLive(view: int, self: ReplicaId, n: int, status: int -> bool): (r: int)
    requires 0 <= self < n
    ensures view < r <= view + 1 + Gap(view, self, n) <= view + n
    decreases Gap(view, self, n)
  {
    if (view + 1) % n == self || status(view + 1) then view + 1
    else
      GapShrinks(view, self, n);
      NextLive(view + 1, self, n, status)
  }

  /** It is the least view above `view` whose leader is this replica or was reported connected. */
  lemma {:induction false} NextLiveIsLeast(view: int, self: ReplicaId, n: int, status: int -> bool)
    requires 0 <= self < n
    ensures var r := NextLive(view, self, n, status);
            && (r % n == self || status(r))
            && forall v :: view < v < r ==> v % n != self && !status(v)
    decreases Gap(view, self, n)
  {
    if (view + 1) % n != self && !status(view + 1) {
      GapShrinks(view, self, n);
      NextLiveIsLeast(view + 1, self, n, status);
    }
  }

  // ---------------------------------------------------------------------------
  // New-view messages

  function ViewsAt(p: PM, v: int): map<ReplicaId, NewView> {
    if v in p.views then p.views[v] else map[]
  }

  /** Recording a message: a sender's first one is added until the quorum is there; its later ones replace
      it only if they carry a lower certificate view. */
  function Recorded(env: Env, p: PM, id: ReplicaId, nv: NewView): map<ReplicaId, NewView> {
    var at := ViewsAt(p, nv.viewNumber);
    if nv.viewNumber in p.views && |at| >= GetQuorumSize(env.metadata) then at
    else if id in at && at[id].genericQc.viewNumber <= nv.genericQc.viewNumber then at
    else at[id := nv]
  }

  /** The message completes the quorum of its view. */
  predicate Fires(env: Env, p: PM, id: ReplicaId, nv: NewView) {
    var at := ViewsAt(p, nv.viewNumber);
    && !(nv.viewNumber in p.views && |at| >= GetQuorumSize(env.metadata))
    && id !in at && |at| + 1 == GetQuorumSize(env.metadata)
  }

  function AddNewViewMsg(env: Env, p: PM, id: ReplicaId, nv: NewView): PM {
    p.(views := p.views[nv.viewNumber := Recorded(env, p, id, nv)],
       fired := if Fires(env, p, id, nv) then p.fired + [nv.viewNumber] else p.fired)
  }

  function ClearViews(p: PM): PM {
    p.(views := map v | v in p.views && v >= p.curView :: p.views[v])
  }

  function BeatOrSync(p: PM): PM {
    p.(spawned := p.spawned + [if p.queue != [] then Beat else NextSync])
  }

  function UpdateQcHigh(p: PM, view: int): PM {
    p.(curView := Max(p.curView, view))
  }

  function CurrentNewView(p: PM): NewView {
    NewView(p.curView, p.core.genericQC)
  }

  function OnReceiveNewView(env: Env, p: PM, id: ReplicaId, nv: NewView): PM {
    if nv.viewNumber < p.curView || nv.genericQc.blockHash !in p.core.blockCache then p
    else
      var block := p.core.blockCache[nv.genericQc.blockHash];
      if nv.genericQc.viewNumber > p.core.genericQC.viewNumber then
        BeatOrSync(UpdateQcHigh(p.(core := UpdateHighestQC(env, p.core, block, nv.genericQc)), nv.viewNumber))
      else if nv.viewNumber > p.curView then
        var p1 := p.(curView := nv.viewNumber);
        p1.(sent := p1.sent + [NewViewToAll(CurrentNewView(p1))])
      else
        var p1 := AddNewViewMsg(env, p, id, nv);
        if !Fires(env, p, id, nv) then p1
        else
          var p2 := p1.(core := UpdateHighestQC(env, p1.core, block, nv.genericQc));
          if p2.queue != [] then p2.(spawned := p2.spawned + [Beat]) else p2
  }

  // ---------------------------------------------------------------------------
  // View changes

  function OnNextSyncView(env: Env, p: PM, status: int -> bool): PM
    requires Seated(env)
  {
    var p1 := p.(curView := NextLive(p.curView, env.id, env.metadata.n, status));
    var leader := GetCurLeader(env.metadata.n, p1.curView);
    ClearViews(
      if leader != env.id then p1.(sent := p1.sent + [NewViewTo(leader, CurrentNewView(p1))])
      else if p1.queue != [] then OnReceiveNewView(env, p1, env.id, CurrentNewView(p1))
      else p1)
  }

  function OnQcFinishEvent(env: Env, p: PM, qc: QuorumCert): PM
    requires Seated(env)
  {
    var p1 := p.(curView := Max(p.curView, qc.viewNumber));
    if GetLeader(env.metadata.n, p1.curView) == env.id then BeatOrSync(p1.(curView := p1.curView + 1))
    else p1.(spawned := p1.spawned + [NextSync])
  }

  function OnProposeEvent(env: Env, p: PM, viewNumber: int, block: Block, status: int -> bool): PM
    requires Seated(env)
  {
    if GetLeader(env.metadata.n, p.curView) != env.id && !status(p.curView) then
      p.(curView := p.curView + 1, sent := p.sent + [ProposalToAll(p.curView + 1, block)])
    else p.(sent := p.sent + [ProposalToAll(viewNumber, block)])
  }

  function OnBeat(env: Env, p: PM, timestamp: int): PM
    requires Seated(env)
  {
    if p.queue == [] then p
    else
      var cmds, p1 := p.queue[0], p.(queue := p.queue[1..]);
      var leader := GetCurLeader(env.metadata.n, p1.curView);
      if leader != env.id then p1.(sent := p1.sent + [ForwardTo(leader, cmds)])
      else p1.(core := OnPropose(env, p1.core, p1.curView, p1.core.genericQC.blockHash, cmds, timestamp).core)
  }

  // ---------------------------------------------------------------------------
  // Routing the vote for a received proposal

  /** What was reported about the leader of a view, by what was reported about the next leader. */
  function Asked(status: int -> bool): int -> bool {
    v => status(v - 1)
  }

  /** The view in which the search for a live next leader ends, starting from view `w`. */
  function Settle(w: int, self: ReplicaId, n: int, status: int -> bool): (v: int)
    requires 0 <= self < n
    ensures w <= v < w + n
  {
    NextLive(w, self, n, Asked(status)) - 1
  }

  /** It is the first view from `w` on whose next leader is this replica or was reported connected. */
  lemma SettleIsLeast(w: int, self: ReplicaId, n: int, status: int -> bool)
    requires 0 <= self < n
    ensures var v := Settle(w, self, n, status);
            && ((v + 1) % n == self || status(v))
            && forall x :: w <= x < v ==> (x + 1) % n != self && !status(x)
  {
    NextLiveIsLeast(w, self, n, Asked(status));
    forall x | w <= x < Settle(w, self, n, status)
      ensures (x + 1) % n != self && !status(x)
    {
      assert !Asked(status)(x + 1);
    }
  }

  /** Sends the vote to the leader after `viewNumber`, or counts it if that is this replica. */
  function PassVote(env: Env, p: PM, viewNumber: int, vote: Vote): PM
    requires Seated(env)
  {
    var leader := GetLeader(env.metadata.n, viewNumber);
    if leader != env.id then p.(sent := p.sent + [VoteTo(leader, vote)])
    else p.(core := OnProposalVote(env, p.core, vote).core)
  }

  function PassTimes(env: Env, p: PM, viewNumber: int, vote: Vote, m: nat): PM
    requires Seated(env)
  {
    if m == 0 then p else PassVote(env, PassTimes(env, p, viewNumber, vote, m - 1), viewNumber, vote)
  }

  /** The proposal's view number once the handler is done with it. */
  function RoutedView(env: Env, p: PM, viewNumber: int, status: int -> bool): int
    requires Seated(env)
  {
    var w := Max(p.curView, viewNumber);
    var v := Settle(w, env.id, env.metadata.n, status);
    if v > w then v else viewNumber
  }

  /** How many times the handler sends or counts the vote: once, and once more for every leader skipped. */
  function Repeats(env: Env, p: PM, viewNumber: int, status: int -> bool): nat
    requires Seated(env)
  {
    var w := Max(p.curView, viewNumber);
    Settle(w, env.id, env.metadata.n, status) - w + 1
  }

  function OnReceiveProposal(env: Env, p: PM, viewNumber: int, vote: Vote, status: int -> bool): PM
    requires Seated(env)
  {
    PassTimes(env, p.(curView := Settle(Max(p.curView, viewNumber), env.id, env.metadata.n, status)),
              RoutedView(env, p, viewNumber, status), vote, Repeats(env, p, viewNumber, status))
  }
}
