/**
 Every interleaving of the lock protocol of internal/mutex/mutex.go under one fixed master.

 A step is one critical section, one send or receive on a channel, one delivery or one loss.  Messages
 may be reordered and lost and are delivered at most once.  Callers may time out or be cancelled at any
 point of their wait, also when the grant is already on its way.
 */
module LockProtocol {
  import opened Options
  import opened LockEngine

  datatype Cluster = Cluster(nodes: set<Node>, master: Node) {
    ghost predicate Valid() { master in nodes }
  }

  /** Where the caller that drew a request id stands. */
  datatype Phase =
    | Fresh    // the id has not been drawn
    | Joining  // local: queued, its channel not stored yet
    | Unsent   // remote: its channel is stored, the request not sent
    | Waiting  // in the select
    | Holding  // Acquire has returned; release has not been called
    | Done     // release has been called
    | GaveUp   // send error, timeout or cancellation

  datatype Msg =
    | Request(from: Node, req: Req)
    | Grant(to: Node, req: Req)
    | Deny(to: Node, req: Req)
    | Release(req: Req)

  /**
   `tokens` are the contents of all grant channels and `handing` the HandleLockGrant calls that have
   looked a channel up and not sent on it yet.  `granted` and `entered` are history: the requests ever
   made holder, and every token ever put into a channel.
   */
  datatype State = State(
    engines: map<Node, Engine>,
    net: multiset<Msg>,
    phase: map<Req, Phase>,
    tokens: multiset<Req>,
    handing: multiset<Req>,
    granted: set<Req>,
    entered: multiset<Req>)

  datatype Step =
    | LocalAcquire(req: Req)
    | LocalRegister(req: Req)
    | RemoteRegister(req: Req)
    | RemoteSend(req: Req)
    | RemoteSendFails(req: Req)
    | TakeToken(req: Req)
    | Timeout(req: Req)
    | Cancel(req: Req)
    | LocalRelease(req: Req)
    | RemoteRelease(req: Req)
    | DeliverRequest(from: Node, req: Req)
    | DeliverRelease(req: Req)
    | LookupGrant(to: Node, req: Req)
    | SendToken(req: Req)
    | DropDeny(to: Node, req: Req)
    | Lose(msg: Msg)

  function Ph(s: State, r: Req): Phase {
    if r in s.phase then s.phase[r] else Fresh
  }

  ghost predicate WellFormed(c: Cluster, s: State) {
    c.Valid() && s.engines.Keys == c.nodes
  }

  ghost predicate Init(c: Cluster, s: State) {
    s == State(map n | n in c.nodes :: EMPTY, multiset{}, map[], multiset{}, multiset{}, {}, multiset{})
  }

  function Arbiter(c: Cluster, s: State): Engine
    requires c.master in s.engines
  {
    s.engines[c.master]
  }

  predicate Enabled(c: Cluster, s: State, step: Step) {
    match step
    case LocalAcquire(r) => r.owner == c.master && Ph(s, r) == Fresh
    case LocalRegister(r) => Ph(s, r) == Joining
    case RemoteRegister(r) => r.owner in c.nodes && r.owner != c.master && Ph(s, r) == Fresh
    case RemoteSend(r) => Ph(s, r) == Unsent
    case RemoteSendFails(r) => Ph(s, r) == Unsent
    case TakeToken(r) => Ph(s, r) == Waiting && r in s.tokens
    case Timeout(r) => Ph(s, r) == Waiting
    case Cancel(r) => Ph(s, r) == Waiting && r.owner != c.master
    case LocalRelease(r) => Ph(s, r) == Holding && r.owner == c.master
    case RemoteRelease(r) => Ph(s, r) == Holding && r.owner != c.master
    case DeliverRequest(from, r) => Request(from, r) in s.net
    case DeliverRelease(r) => Release(r) in s.net
    case LookupGrant(to, r) => Grant(to, r) in s.net && to in c.nodes
    case SendToken(r) => r in s.handing
    case DropDeny(to, r) => Deny(to, r) in s.net
    case Lose(m) => m in s.net
  }

  function SetGrants(s: State, n: Node, grants: set<Req>): (s': State)
    requires n in s.engines
    ensures s'.phase == s.phase && s'.engines.Keys == s.engines.Keys
  {
    s.(engines := s.engines[n := s.engines[n].(grants := grants)])
  }

  /** releaseLocal at the master, with the channel or network effect it asks for. */
  function AfterHandOver(c: Cluster, s: State, r: Req): (s': State)
    requires c.master in s.engines
    ensures s'.phase == s.phase && s'.engines.Keys == s.engines.Keys
  {
    var (e, reply) := HandOver(Arbiter(c, s), r);
    var s' := s.(engines := s.engines[c.master := e]);
    match reply
    case Notify(q) =>
      s'.(tokens := s.tokens + multiset{q}, entered := s.entered + multiset{q}, granted := s.granted + {q})
    case SendGrant(to, q) => s'.(net := s.net + multiset{Grant(to, q)}, granted := s.granted + {q})
    case _ => s'
  }

  /** A request reaches the master's HandleLockRequest or the local first critical section. */
  function AfterArrival(c: Cluster, s: State, p: Pending): (s': State)
    requires c.master in s.engines
    ensures s'.phase == s.phase
  {
    var e := Arbiter(c, s);
    s.(engines := s.engines[c.master := Arrive(e, p)],
       granted := if e.holder.None? then s.granted + {p.req} else s.granted)
  }

  function Do(c: Cluster, s: State, step: Step): State
    requires c.master in s.engines && c.nodes <= s.engines.Keys
    requires Enabled(c, s, step)
  {
    match step
    case LocalAcquire(r) =>
      var free := Arbiter(c, s).holder.None?;
      AfterArrival(c, s.(phase := s.phase[r := if free then Holding else Joining]), Pending(r, c.master))
    case LocalRegister(r) =>
      SetGrants(s, c.master, Arbiter(c, s).grants + {r}).(phase := s.phase[r := Waiting])
    case RemoteRegister(r) =>
      SetGrants(s, r.owner, s.engines[r.owner].grants + {r}).(phase := s.phase[r := Unsent])
    case RemoteSend(r) =>
      s.(net := s.net + multiset{Request(r.owner, r)}, phase := s.phase[r := Waiting])
    case RemoteSendFails(r) => ForgetRemote(c, s, r).(phase := s.phase[r := GaveUp])
    case TakeToken(r) => s.(tokens := s.tokens - multiset{r}, phase := s.phase[r := Holding])
    case Timeout(r) => ForgetRemote(c, s, r).(phase := s.phase[r := GaveUp])
    case Cancel(r) => s.(phase := s.phase[r := GaveUp])
    case LocalRelease(r) => AfterHandOver(c, s.(phase := s.phase[r := Done]), r)
    case RemoteRelease(r) => s.(net := s.net + multiset{Release(r)}, phase := s.phase[r := Done])
    case DeliverRequest(from, r) =>
      var s' := s.(net := s.net - multiset{Request(from, r)});
      AfterArrival(c, s', Pending(r, from)).(
        net := s'.net + multiset{if Arbiter(c, s).holder.None? then Grant(from, r) else Deny(from, r)})
    case DeliverRelease(r) => AfterHandOver(c, s.(net := s.net - multiset{Release(r)}), r)
    case LookupGrant(to, r) =>
      var s' := s.(net := s.net - multiset{Grant(to, r)});
      if r in s.engines[to].grants then s'.(handing := s.handing + multiset{r}) else s'
    case SendToken(r) =>
      s.(handing := s.handing - multiset{r}, tokens := s.tokens + multiset{r}, entered := s.entered + multiset{r})
    case DropDeny(to, r) => s.(net := s.net - multiset{Deny(to, r)})
    case Lose(m) => s.(net := s.net - multiset{m})
  }

  /** Only a remote caller deletes its channel when it gives up; a local one leaves it behind. */
  function ForgetRemote(c: Cluster, s: State, r: Req): (s': State)
    ensures s'.phase == s.phase && s'.engines.Keys == s.engines.Keys
  {
    if r.owner != c.master && r.owner in s.engines then SetGrants(s, r.owner, s.engines[r.owner].grants - {r}) else s
  }

  ghost predicate Next(c: Cluster, s: State, s': State) {
    WellFormed(c, s) && exists step :: Enabled(c, s, step) && s' == Do(c, s, step)
  }

  ghost predicate StepAt(c: Cluster, run: seq<State>, i: nat)
    requires i + 1 < |run|
  {
    Next(c, run[i], run[i + 1])
  }

  ghost predicate Behaviour(c: Cluster, run: seq<State>) {
    c.Valid() && run != [] && Init(c, run[0]) && forall i :: 0 <= i < |run| - 1 ==> StepAt(c, run, i)
  }

  // ---- The inductive invariant --------------------------------------------------------------------

  /** Everything that lets somebody act as holder of `r`: at most one such thing exists at a time. */
  function Evidence(s: State, r: Req): nat {
    s.net[Grant(r.owner, r)] + s.handing[r] + s.tokens[r] + (if Ph(s, r) == Holding then 1 else 0) + s.net[Release(r)]
  }

  function InQueue(q: seq<Pending>, r: Req): nat {
    if q == [] then 0 else InQueue(q[..|q| - 1], r) + (if q[|q| - 1].req == r then 1 else 0)
  }

  /** The stages of a request before it is settled: a request is in at most one of them, once. */
  function Stages(c: Cluster, s: State, r: Req): nat
    requires c.master in s.engines
  {
    (if Ph(s, r) == Fresh || Ph(s, r) == Unsent then 1 else 0)
    + s.net[Request(r.owner, r)]
    + InQueue(Arbiter(c, s).queue, r)
    + (if r in s.granted then 1 else 0)
  }

  /** What the protocol keeps for one request. */
  ghost predicate Ok(c: Cluster, s: State, r: Req)
    requires c.master in s.engines
  {
    && Evidence(s, r) <= (if Arbiter(c, s).holder == Some(r) then 1 else 0)
    && Settled(c, s, r)
  }

  ghost predicate Settled(c: Cluster, s: State, r: Req)
    requires c.master in s.engines
  {
    && (Arbiter(c, s).holder == Some(r) ==> r in s.granted)
    && Stages(c, s, r) <= 1
    && s.entered[r] + s.handing[r] + s.net[Grant(r.owner, r)] <= (if r in s.granted then 1 else 0)
    && (Ph(s, r) == Unsent ==> r.owner in c.nodes && r.owner != c.master)
    && (Ph(s, r) == Joining ==> r.owner == c.master)
    && (s.net[Request(r.owner, r)] > 0 ==> r.owner != c.master)
    && (s.net[Release(r)] > 0 ==> Ph(s, r) == Done)
  }

  /** Requests carry their sender and grants go back to it. */
  ghost predicate Addressed(c: Cluster, s: State)
    requires c.master in s.engines
  {
    var q := Arbiter(c, s).queue;
    && (forall m :: m in s.net ==> (m.Request? ==> m.from == m.req.owner) && (m.Grant? ==> m.to == m.req.owner))
    && (forall i :: 0 <= i < |q| ==> q[i].from == q[i].req.owner)
  }

  ghost predicate Inv(c: Cluster, s: State) {
    && WellFormed(c, s)
    && Addressed(c, s)
    && forall r :: Ok(c, s, r)
  }

  lemma {:induction false} QueueTail(q: seq<Pending>, r: Req)
    requires q != []
    ensures InQueue(q, r) == (if q[0].req == r then 1 else 0) + InQueue(q[1..], r)
  {
    if |q| > 1 {
      QueueTail(q[..|q| - 1], r);
      assert q[1..][..|q| - 2] == q[..|q| - 1][1..];
    }
  }

  lemma InitInv(c: Cluster, s: State)
    requires c.Valid() && Init(c, s)
    ensures Inv(c, s)
  {
  }

  // One lemma a step: what the step keeps for an arbitrary request `r`.

  lemma QueuePush(q: seq<Pending>, p: Pending, r: Req)
    ensures InQueue(q + [p], r) == InQueue(q, r) + (if p.req == r then 1 else 0)
  {
    assert (q + [p])[..|q|] == q;
  }

  /** A request that reaches the arbiter while in no stage is queued or granted. */
  lemma ArrivalSettles(c: Cluster, s: State, p: Pending, r: Req)
    requires c.master in s.engines && Settled(c, s, r) && Stages(c, s, p.req) == 0
    ensures Settled(c, AfterArrival(c, s, p), r)
  {
    QueuePush(Arbiter(c, s).queue, p, r);
    QueuePush(Arbiter(c, s).queue, p, p.req);
  }

  /** The state in which a local caller has drawn its id and is about to reach the arbiter. */
  function Drawn(c: Cluster, s: State, req: Req): State
    requires c.master in s.engines
  {
    s.(phase := s.phase[req := if Arbiter(c, s).holder.None? then Holding else Joining])
  }

  lemma DrawnIsSettled(c: Cluster, s: State, req: Req, r: Req)
    requires WellFormed(c, s) && Enabled(c, s, LocalAcquire(req)) && Ok(c, s, r) && Ok(c, s, req)
    ensures Settled(c, Drawn(c, s, req), r) && Stages(c, Drawn(c, s, req), req) == 0
  {
  }

  lemma LocalAcquireSettles(c: Cluster, s: State, req: Req, r: Req)
    requires WellFormed(c, s) && Enabled(c, s, LocalAcquire(req)) && Ok(c, s, r) && Ok(c, s, req)
    ensures Settled(c, Do(c, s, LocalAcquire(req)), r)
  {
    DrawnIsSettled(c, s, req, r);
    ArrivalSettles(c, Drawn(c, s, req), Pending(req, c.master), r);
  }

  lemma LocalAcquireKeeps(c: Cluster, s: State, req: Req, r: Req)
    requires WellFormed(c, s) && Enabled(c, s, LocalAcquire(req)) && Ok(c, s, r) && Ok(c, s, req)
    ensures Ok(c, Do(c, s, LocalAcquire(req)), r)
  {
    LocalAcquireSettles(c, s, req, r);
  }

  lemma RequestTakenOut(c: Cluster, s: State, req: Req, r: Req)
    requires WellFormed(c, s) && Enabled(c, s, DeliverRequest(req.owner, req)) && Ok(c, s, r) && Ok(c, s, req)
    ensures var s1 := s.(net := s.net - multiset{Request(req.owner, req)});
      Settled(c, s1, r) && Stages(c, s1, req) == 0 && Evidence(s1, r) == Evidence(s, r)
  {
  }

  lemma DeliverRequestKeeps(c: Cluster, s: State, req: Req, r: Req)
    requires WellFormed(c, s) && Enabled(c, s, DeliverRequest(req.owner, req)) && Ok(c, s, r) && Ok(c, s, req)
    ensures Ok(c, Do(c, s, DeliverRequest(req.owner, req)), r)
  {
    RequestTakenOut(c, s, req, r);
    ArrivalSettles(c, s.(net := s.net - multiset{Request(req.owner, req)}), Pending(req, req.owner), r);
  }

  /** Between giving up the evidence for `done` and handing the lock over, only the holder has evidence. */
  ghost predicate OkReleased(c: Cluster, s: State, done: Req, r: Req)
    requires c.master in s.engines
  {
    && Evidence(s, r) <= (if Arbiter(c, s).holder == Some(r) && r != done then 1 else 0)
    && Settled(c, s, r)
  }

  lemma HandOverToHead(c: Cluster, s: State, done: Req)
    requires c.master in s.engines && Arbiter(c, s).queue != [] && OkReleased(c, s, done, Arbiter(c, s).queue[0].req)
    requires Arbiter(c, s).queue[0].from == Arbiter(c, s).queue[0].req.owner
    ensures Ok(c, AfterHandOver(c, s, done), Arbiter(c, s).queue[0].req)
  {
    QueueTail(Arbiter(c, s).queue, Arbiter(c, s).queue[0].req);
  }

  lemma HandOverPassesBy(c: Cluster, s: State, done: Req, r: Req)
    requires c.master in s.engines && Arbiter(c, s).queue != [] && OkReleased(c, s, done, r)
    requires Arbiter(c, s).queue[0].req != r
    ensures Ok(c, AfterHandOver(c, s, done), r)
  {
    QueueTail(Arbiter(c, s).queue, r);
  }

  lemma HandOverKeeps(c: Cluster, s: State, done: Req, r: Req)
    requires c.master in s.engines && OkReleased(c, s, done, r)
    requires Arbiter(c, s).queue != [] ==>
      var head := Arbiter(c, s).queue[0]; head.from == head.req.owner && OkReleased(c, s, done, head.req)
    ensures Ok(c, AfterHandOver(c, s, done), r)
  {
    var q := Arbiter(c, s).queue;
    if q != [] {
      if r == q[0].req {
        HandOverToHead(c, s, done);
      } else {
        HandOverPassesBy(c, s, done, r);
      }
    }
  }

  lemma LocalReleaseKeeps(c: Cluster, s: State, req: Req, r: Req)
    requires WellFormed(c, s) && Enabled(c, s, LocalRelease(req)) && Ok(c, s, req) && Ok(c, s, r)
    ensures OkReleased(c, s.(phase := s.phase[req := Done]), req, r)
  {
  }

  lemma DeliverReleaseKeeps(c: Cluster, s: State, req: Req, r: Req)
    requires WellFormed(c, s) && Enabled(c, s, DeliverRelease(req)) && Ok(c, s, req) && Ok(c, s, r)
    ensures OkReleased(c, s.(net := s.net - multiset{Release(req)}), req, r)
  {
  }

  lemma RegisterKeeps(c: Cluster, s: State, step: Step, r: Req)
    requires WellFormed(c, s) && Enabled(c, s, step) && (step.LocalRegister? || step.RemoteRegister?)
    requires Ok(c, s, r) && Ok(c, s, step.req)
    ensures Ok(c, Do(c, s, step), r)
  {
  }

  lemma SendKeeps(c: Cluster, s: State, step: Step, r: Req)
    requires WellFormed(c, s) && Enabled(c, s, step) && (step.RemoteSend? || step.RemoteRelease?)
    requires Ok(c, s, r) && Ok(c, s, step.req)
    ensures Ok(c, Do(c, s, step), r)
  {
  }

  lemma TakeTokenKeeps(c: Cluster, s: State, req: Req, r: Req)
    requires WellFormed(c, s) && Enabled(c, s, TakeToken(req)) && Ok(c, s, r)
    ensures Ok(c, Do(c, s, TakeToken(req)), r)
  {
  }

  lemma SendFailsKeeps(c: Cluster, s: State, req: Req, r: Req)
    requires WellFormed(c, s) && Enabled(c, s, RemoteSendFails(req)) && Ok(c, s, r)
    ensures Ok(c, Do(c, s, RemoteSendFails(req)), r)
  {
  }

  lemma TimeoutKeeps(c: Cluster, s: State, step: Step, r: Req)
    requires WellFormed(c, s) && Enabled(c, s, step) && (step.Timeout? || step.Cancel?) && Ok(c, s, r)
    ensures Ok(c, Do(c, s, step), r)
  {
  }

  lemma LookupGrantKeeps(c: Cluster, s: State, req: Req, r: Req)
    requires WellFormed(c, s) && Enabled(c, s, LookupGrant(req.owner, req)) && Ok(c, s, r)
    ensures Ok(c, Do(c, s, LookupGrant(req.owner, req)), r)
  {
  }

  lemma SendTokenKeeps(c: Cluster, s: State, req: Req, r: Req)
    requires WellFormed(c, s) && Enabled(c, s, SendToken(req)) && Ok(c, s, r)
    ensures Ok(c, Do(c, s, SendToken(req)), r)
  {
  }

  lemma LossKeeps(c: Cluster, s: State, step: Step, r: Req)
    requires WellFormed(c, s) && Enabled(c, s, step) && (step.DropDeny? || step.Lose?) && Ok(c, s, r)
    ensures Ok(c, Do(c, s, step), r)
  {
  }

  lemma LocalAcquireInv(c: Cluster, s: State, req: Req)
    requires Inv(c, s) && Enabled(c, s, LocalAcquire(req))
    ensures Inv(c, Do(c, s, LocalAcquire(req)))
  {
    forall r
      ensures Ok(c, Do(c, s, LocalAcquire(req)), r)
    {
      assert Ok(c, s, r) && Ok(c, s, req);
      LocalAcquireKeeps(c, s, req, r);
    }
  }

  lemma DeliverRequestInv(c: Cluster, s: State, step: Step)
    requires Inv(c, s) && step.DeliverRequest? && Enabled(c, s, step)
    ensures Inv(c, Do(c, s, step))
  {
    var req := step.req;
    assert step == DeliverRequest(req.owner, req);
    forall r
      ensures Ok(c, Do(c, s, step), r)
    {
      assert Ok(c, s, r) && Ok(c, s, req);
      DeliverRequestKeeps(c, s, req, r);
    }
  }

  /** `s1` is the state in which the evidence for `req` has been used up. */
  lemma HandOverInv(c: Cluster, s1: State, req: Req)
    requires WellFormed(c, s1) && Addressed(c, s1) && forall r :: OkReleased(c, s1, req, r)
    ensures Inv(c, AfterHandOver(c, s1, req))
  {
    forall r
      ensures Ok(c, AfterHandOver(c, s1, req), r)
    {
      assert OkReleased(c, s1, req, r);
      HandOverKeeps(c, s1, req, r);
    }
  }

  lemma LocalReleaseInv(c: Cluster, s: State, req: Req)
    requires Inv(c, s) && Enabled(c, s, LocalRelease(req))
    ensures Inv(c, Do(c, s, LocalRelease(req)))
  {
    var s1 := s.(phase := s.phase[req := Done]);
    forall r
      ensures OkReleased(c, s1, req, r)
    {
      assert Ok(c, s, r) && Ok(c, s, req);
      LocalReleaseKeeps(c, s, req, r);
    }
    HandOverInv(c, s1, req);
  }

  lemma DeliverReleaseInv(c: Cluster, s: State, req: Req)
    requires Inv(c, s) && Enabled(c, s, DeliverRelease(req))
    ensures Inv(c, Do(c, s, DeliverRelease(req)))
  {
    var s1 := s.(net := s.net - multiset{Release(req)});
    forall r
      ensures OkReleased(c, s1, req, r)
    {
      assert Ok(c, s, r) && Ok(c, s, req);
      DeliverReleaseKeeps(c, s, req, r);
    }
    HandOverInv(c, s1, req);
  }

  lemma RegisterInv(c: Cluster, s: State, step: Step)
    requires Inv(c, s) && Enabled(c, s, step) && (step.LocalRegister? || step.RemoteRegister?)
    ensures Inv(c, Do(c, s, step))
  {
    forall r
      ensures Ok(c, Do(c, s, step), r)
    {
      assert Ok(c, s, r) && Ok(c, s, step.req);
      RegisterKeeps(c, s, step, r);
    }
  }

  lemma SendInv(c: Cluster, s: State, step: Step)
    requires Inv(c, s) && Enabled(c, s, step) && (step.RemoteSend? || step.RemoteRelease?)
    ensures Inv(c, Do(c, s, step))
  {
    forall r
      ensures Ok(c, Do(c, s, step), r)
    {
      assert Ok(c, s, r) && Ok(c, s, step.req);
      SendKeeps(c, s, step, r);
    }
  }

  lemma GiveUpInv(c: Cluster, s: State, step: Step)
    requires Inv(c, s) && Enabled(c, s, step) && (step.RemoteSendFails? || step.Timeout? || step.Cancel?)
    ensures Inv(c, Do(c, s, step))
  {
    forall r
      ensures Ok(c, Do(c, s, step), r)
    {
      assert Ok(c, s, r);
      if step.RemoteSendFails? {
        SendFailsKeeps(c, s, step.req, r);
      } else {
        TimeoutKeeps(c, s, step, r);
      }
    }
  }

  lemma TokenInv(c: Cluster, s: State, step: Step)
    requires Inv(c, s) && Enabled(c, s, step) && (step.TakeToken? || step.SendToken?)
    ensures Inv(c, Do(c, s, step))
  {
    forall r
      ensures Ok(c, Do(c, s, step), r)
    {
      assert Ok(c, s, r);
      if step.TakeToken? {
        TakeTokenKeeps(c, s, step.req, r);
      } else {
        SendTokenKeeps(c, s, step.req, r);
      }
    }
  }

  lemma LookupGrantInv(c: Cluster, s: State, to: Node, req: Req)
    requires Inv(c, s) && Enabled(c, s, LookupGrant(to, req))
    ensures Inv(c, Do(c, s, LookupGrant(to, req)))
  {
    assert to == req.owner;
    forall r
      ensures Ok(c, Do(c, s, LookupGrant(to, req)), r)
    {
      assert Ok(c, s, r);
      LookupGrantKeeps(c, s, req, r);
    }
  }

  lemma LossInv(c: Cluster, s: State, step: Step)
    requires Inv(c, s) && Enabled(c, s, step) && (step.DropDeny? || step.Lose?)
    ensures Inv(c, Do(c, s, step))
  {
    forall r
      ensures Ok(c, Do(c, s, step), r)
    {
      assert Ok(c, s, r);
      LossKeeps(c, s, step, r);
    }
  }

  /** Every step of the protocol, taken in any state that satisfies the invariant, keeps it. */
  lemma StepInv(c: Cluster, s: State, step: Step)
    requires Inv(c, s) && Enabled(c, s, step)
    ensures Inv(c, Do(c, s, step))
  {
    match step
    case LocalAcquire(req) => LocalAcquireInv(c, s, req);
    case DeliverRequest(_, _) => DeliverRequestInv(c, s, step);
    case LocalRelease(req) => LocalReleaseInv(c, s, req);
    case DeliverRelease(req) => DeliverReleaseInv(c, s, req);
    case LocalRegister(_) => RegisterInv(c, s, step);
    case RemoteRegister(_) => RegisterInv(c, s, step);
    case RemoteSend(_) => SendInv(c, s, step);
    case RemoteRelease(_) => SendInv(c, s, step);
    case RemoteSendFails(_) => GiveUpInv(c, s, step);
    case Timeout(_) => GiveUpInv(c, s, step);
    case Cancel(_) => GiveUpInv(c, s, step);
    case TakeToken(_) => TokenInv(c, s, step);
    case SendToken(_) => TokenInv(c, s, step);
    case LookupGrant(to, req) => LookupGrantInv(c, s, to, req);
    case DropDeny(_, _) => LossInv(c, s, step);
    case Lose(_) => LossInv(c, s, step);
  }

  lemma NextInv(c: Cluster, s: State, s': State)
    requires Inv(c, s) && Next(c, s, s')
    ensures Inv(c, s')
  {
    var step :| Enabled(c, s, step) && s' == Do(c, s, step);
    StepInv(c, s, step);
  }

  lemma {:induction false} ReachableInv(c: Cluster, run: seq<State>, k: nat)
    requires Behaviour(c, run) && k < |run|
    ensures Inv(c, run[k])
  {
    if k == 0 {
      InitInv(c, run[0]);
    } else {
      ReachableInv(c, run, k - 1);
      assert StepAt(c, run, k - 1);
      NextInv(c, run[k - 1], run[k]);
    }
  }

  // ---- What the invariant is for ------------------------------------------------------------------

  /** Cluster-wide mutual exclusion, in every reachable state. */
  lemma MutualExclusion(c: Cluster, run: seq<State>, k: nat, r: Req, q: Req)
    requires Behaviour(c, run) && k < |run|
    requires Ph(run[k], r) == Holding && Ph(run[k], q) == Holding
    ensures r == q && WellFormed(c, run[k]) && Arbiter(c, run[k]).holder == Some(r)
  {
    ReachableInv(c, run, k);
    assert Ok(c, run[k], r) && Ok(c, run[k], q);
  }

  /**
   A grant channel holds one token and never gets a second one, so neither send can block: not the one
   HandleLockGrant makes, and not the one releaseLocal makes while it holds the engine's mutex.
   */
  lemma SendsNeverBlock(c: Cluster, run: seq<State>, k: nat, r: Req)
    requires Behaviour(c, run) && k < |run|
    ensures run[k].entered[r] <= 1 && run[k].tokens[r] <= 1
    ensures r in run[k].handing ==> run[k].tokens[r] == 0 && run[k].entered[r] == 0
  {
    ReachableInv(c, run, k);
    assert Ok(c, run[k], r);
  }

  /** The precondition of MutexEngine.ReleaseLocal: the channel of the waiter it notifies is empty. */
  lemma HandOverNeverBlocks(c: Cluster, run: seq<State>, k: nat)
    requires Behaviour(c, run) && k < |run|
    ensures WellFormed(c, run[k])
    ensures Arbiter(c, run[k]).queue != [] ==>
      var next := Arbiter(c, run[k]).queue[0].req; run[k].tokens[next] == 0 && run[k].entered[next] == 0
  {
    ReachableInv(c, run, k);
    var q := Arbiter(c, run[k]).queue;
    if q != [] {
      assert Ok(c, run[k], q[0].req);
      QueueTail(q, q[0].req);
    }
  }

  predicate ByCaller(step: Step) {
    step.LocalAcquire? || step.LocalRegister? || step.RemoteRegister? || step.RemoteSend? || step.RemoteSendFails?
    || step.TakeToken? || step.Timeout? || step.Cancel? || step.LocalRelease? || step.RemoteRelease?
  }

  lemma ArbiterKeepsPhases(c: Cluster, s: State, step: Step)
    requires WellFormed(c, s) && Enabled(c, s, step) && (step.DeliverRequest? || step.DeliverRelease?)
    ensures Do(c, s, step).phase == s.phase
  {
  }

  lemma DeliveriesKeepPhases(c: Cluster, s: State, step: Step)
    requires WellFormed(c, s) && Enabled(c, s, step) && !ByCaller(step)
    ensures Do(c, s, step).phase == s.phase
  {
    if step.DeliverRequest? || step.DeliverRelease? {
      ArbiterKeepsPhases(c, s, step);
    }
  }

  lemma CallersMoveThemselves(c: Cluster, s: State, step: Step, r: Req)
    requires WellFormed(c, s) && Enabled(c, s, step) && ByCaller(step) && step.req != r
    ensures Ph(Do(c, s, step), r) == Ph(s, r)
  {
    if step.LocalRelease? {
      assert Do(c, s, step).phase == s.phase[step.req := Done];
    }
  }

  /** A caller leaves the critical section only by its own release. */
  lemma HoldsUntilRelease(c: Cluster, s: State, step: Step, r: Req)
    requires WellFormed(c, s) && Enabled(c, s, step) && Ph(s, r) == Holding
    requires step != LocalRelease(r) && step != RemoteRelease(r)
    ensures Ph(Do(c, s, step), r) == Holding
  {
    if !ByCaller(step) {
      DeliveriesKeepPhases(c, s, step);
    } else if step.req != r {
      CallersMoveThemselves(c, s, step, r);
    }
  }
}
